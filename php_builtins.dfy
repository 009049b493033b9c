/**
 * The handful of PHP built-ins the license code relies on, stated over
 * `string` (a `seq<char>`): string truthiness, `trim`/`ltrim`, the first
 * field of `explode(' ', ...)` and `str_replace`.
 */
module PhpBuiltins {

  datatype Option<+T> = None | Some(value: T)

  /** PHP's truthiness of a string: only "" and "0" are false; `empty($s)` is its negation. */
  predicate Truthy(s: string) {
    s != "" && s != "0"
  }

  /** The characters `trim()` strips when no character list is given. */
  const Whitespace: set<char> := {' ', '\t', '\n', '\r', '\0', '\U{0B}'}

  /** `ltrim($s, $cut)`: drop the leading characters that belong to `cut`. */
  function TrimStart(s: string, cut: set<char>): (r: string)
    ensures |r| <= |s| && r == s[|s| - |r|..]
    ensures r == [] || r[0] !in cut
    ensures forall i :: 0 <= i < |s| - |r| ==> s[i] in cut
  {
    if s != [] && s[0] in cut then TrimStart(s[1..], cut) else s
  }

  /** `rtrim($s, $cut)`: drop the trailing characters that belong to `cut`. */
  function TrimEnd(s: string, cut: set<char>): (r: string)
    ensures |r| <= |s| && r == s[..|r|]
    ensures r == [] || r[|r| - 1] !in cut
    ensures forall i :: |r| <= i < |s| ==> s[i] in cut
  {
    if s != [] && s[|s| - 1] in cut then TrimEnd(s[..|s| - 1], cut) else s
  }

  /**
   * `trim($s)`: the input with its leading and trailing whitespace removed.
   * The result is left alone by `trim` exactly when its ends are not whitespace.
   */
  function Trim(s: string): (r: string)
    ensures |r| <= |s|
    ensures exists a, b :: 0 <= a <= b <= |s| && r == s[a..b] &&
                           forall i :: 0 <= i < a || b <= i < |s| ==> s[i] in Whitespace
    ensures r == [] || (r[0] !in Whitespace && r[|r| - 1] !in Whitespace)
    ensures r == s <==> (s == [] || (s[0] !in Whitespace && s[|s| - 1] !in Whitespace))
    ensures forall c :: c in r ==> c in s
  {
    var t := TrimStart(s, Whitespace);
    var r := TrimEnd(t, Whitespace);
    TrimSlice(s, t, r);
    r
  }

  /** A cut at the front followed by a cut at the back leaves a slice with only whitespace around it. */
  lemma TrimSlice(s: string, t: string, r: string)
    requires |t| <= |s| && t == s[|s| - |t|..] && forall i :: 0 <= i < |s| - |t| ==> s[i] in Whitespace
    requires |r| <= |t| && r == t[..|r|] && forall i :: |r| <= i < |t| ==> t[i] in Whitespace
    ensures r == s[|s| - |t|..|s| - |t| + |r|]
    ensures forall i :: 0 <= i < |s| - |t| || |s| - |t| + |r| <= i < |s| ==> s[i] in Whitespace
  {
    var a := |s| - |t|;
    forall i | a + |r| <= i < |s|
      ensures s[i] in Whitespace
    {
      assert s[i] == t[i - a];
    }
  }

  /** `list($first) = explode(' ', $s)`: the text before the first space. */
  function BeforeFirstSpace(s: string): (r: string)
    ensures |r| <= |s| && r == s[..|r|]
    ensures ' ' !in r
    ensures |r| < |s| ==> s[|r|] == ' '
  {
    if s == [] || s[0] == ' ' then [] else [s[0]] + BeforeFirstSpace(s[1..])
  }

  /** `needle` occurs in `s` starting at index `i`. */
  predicate OccursAt(s: string, needle: string, i: int) {
    0 <= i && i + |needle| <= |s| && s[i..i + |needle|] == needle
  }

  /** `needle` occurs somewhere in `s`. */
  ghost predicate Occurs(s: string, needle: string) {
    exists i :: OccursAt(s, needle, i)
  }

  /**
   * `str_replace($search, $replace, $s)`: scan left to right and replace
   * every non-overlapping occurrence of `search`. An empty `search` leaves
   * `s` as it is.
   */
  function Replace(s: string, search: string, replace: string): (r: string)
    ensures forall c :: c in r ==> c in s || c in replace
    ensures search == [] ==> r == s
    decreases |s|
  {
    if search == [] || |s| < |search| then s
    else if s[..|search|] == search then replace + Replace(s[|search|..], search, replace)
    else [s[0]] + Replace(s[1..], search, replace)
  }

  /** `trim` is idempotent. */
  lemma TrimIdempotent(s: string)
    ensures Trim(Trim(s)) == Trim(s)
  {
  }

  /** A string without the search text comes back from `str_replace` unchanged. */
  lemma {:induction false} ReplaceAbsent(s: string, search: string, replace: string)
    requires !Occurs(s, search)
    ensures Replace(s, search, replace) == s
    decreases |s|
  {
    if search == [] || |s| < |search| {
    } else {
      assert s[0..|search|] == s[..|search|];
      assert !OccursAt(s, search, 0);
      assert !Occurs(s[1..], search) by {
        forall i | OccursAt(s[1..], search, i)
          ensures OccursAt(s, search, i + 1)
        {
          assert s[1..][i..i + |search|] == s[i + 1..i + 1 + |search|];
        }
      }
      ReplaceAbsent(s[1..], search, replace);
    }
  }

  /** Replacing the search text by itself changes nothing. */
  lemma {:induction false} ReplaceSelf(s: string, search: string)
    ensures Replace(s, search, search) == s
    decreases |s|
  {
    if search == [] || |s| < |search| {
    } else if s[..|search|] == search {
      ReplaceSelf(s[|search|..], search);
      assert s == s[..|search|] + s[|search|..];
    } else {
      ReplaceSelf(s[1..], search);
      assert s == [s[0]] + s[1..];
    }
  }

  /**
   * The scan replaces the first occurrence: when no occurrence starts inside
   * `pre`, the result is `pre`, the replacement, and the rest replaced in turn.
   */
  lemma {:induction false} ReplaceFirst(pre: string, search: string, post: string, replace: string)
    requires search != []
    requires forall i :: 0 <= i < |pre| ==> !OccursAt(pre + search + post, search, i)
    ensures Replace(pre + search + post, search, replace) == pre + replace + Replace(post, search, replace)
    decreases |pre|
  {
    var s := pre + search + post;
    if pre == [] {
      assert s == search + post;
      assert s[..|search|] == search;
      assert s[|search|..] == post;
    } else {
      assert !OccursAt(s, search, 0);
      assert s[0..|search|] == s[..|search|];
      assert s[1..] == pre[1..] + search + post;
      forall i | 0 <= i < |pre[1..]|
        ensures !OccursAt(pre[1..] + search + post, search, i)
      {
        assert !OccursAt(s, search, i + 1);
        if i + |search| <= |s[1..]| {
          assert s[1..][i..i + |search|] == s[i + 1..i + 1 + |search|];
        }
      }
      var rest := Replace(post, search, replace);
      calc {
        Replace(s, search, replace);
        [pre[0]] + Replace(pre[1..] + search + post, search, replace);
        { ReplaceFirst(pre[1..], search, post, replace); }
        [pre[0]] + (pre[1..] + replace + rest);
        { assert pre == [pre[0]] + pre[1..]; }
        pre + replace + rest;
      }
    }
  }

  /** Characters a PHP numeric string may contain, its surrounding whitespace included. */
  const NumericStringChars: set<char> :=
    {'0', '1', '2', '3', '4', '5', '6', '7', '8', '9', '+', '-', '.', 'e', 'E',
     ' ', '\t', '\n', '\r', '\U{0B}', '\U{0C}'}

  /**
   * `s` holds a character no numeric string has, so PHP's loose `==` and `!=`
   * compare it with any other string as strings.
   */
  predicate NeverNumeric(s: string) {
    exists i :: 0 <= i < |s| && s[i] !in NumericStringChars
  }

  /** A trimmed string with a space put in front trims back to itself. */
  lemma TrimPadded(s: string)
    requires s == [] || (s[0] !in Whitespace && s[|s| - 1] !in Whitespace)
    ensures Trim(" " + s) == s
  {
    var padded := " " + s;
    assert TrimStart(padded, Whitespace) == s by {
      assert padded[1..] == s;
      assert TrimStart(s, Whitespace) == s;
    }
    assert TrimEnd(s, Whitespace) == s;
  }
}
