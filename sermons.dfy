/**
 * The Bible book catalogue and the grouping of sermon books by testament
 * from `includes/sermons.php`. Translation of the book names and the
 * host's filters are the identity here.
 */
module Sermons {
  import opened PhpBuiltins

  /** A book entry: its name and, once tagged, its testament (`'old'`, `'new'` or anything else). */
  datatype Book = Book(name: string, testament: Option<string>)

  /** The catalogue: both testaments in canonical order, and the two joined. */
  datatype BibleBooks = BibleBooks(oldTestament: seq<Book>, newTestament: seq<Book>, all: seq<Book>)

  /** One group of `ctfw_sermon_books_by_testament`: its label and its books. */
  datatype TestamentGroup = TestamentGroup(name: string, books: seq<Book>)

  /** The three groups, which always exist. */
  datatype BooksByTestament = BooksByTestament(oldBooks: TestamentGroup, newBooks: TestamentGroup, otherBooks: TestamentGroup)

  /** The group a book is filed under. */
  datatype Bucket = OldBucket | NewBucket | OtherBucket

  const OldTestamentLabel: string := "Old Testament"
  const NewTestamentLabel: string := "New Testament"
  const OtherBooksLabel: string := "Other Books"

  /** The 39 books of the Old Testament, in canonical order. */
  const OldTestamentNames: seq<string> := [
    "Genesis", "Exodus", "Leviticus", "Numbers", "Deuteronomy",
    "Joshua", "Judges", "Ruth", "1 Samuel", "2 Samuel",
    "1 Kings", "2 Kings", "1 Chronicles", "2 Chronicles", "Ezra",
    "Nehemiah", "Esther", "Job", "Psalms", "Proverbs",
    "Ecclesiastes", "Song of Solomon", "Isaiah", "Jeremiah", "Lamentations",
    "Ezekiel", "Daniel", "Hosea", "Joel", "Amos",
    "Obadiah", "Jonah", "Micah", "Nahum", "Habakkuk",
    "Zephaniah", "Haggai", "Zechariah", "Malachi"]

  /** The 27 books of the New Testament, in canonical order. */
  const NewTestamentNames: seq<string> := [
    "Matthew", "Mark", "Luke", "John", "Acts",
    "Romans", "1 Corinthians", "2 Corinthians", "Galatians", "Ephesians",
    "Philippians", "Colossians", "1 Thessalonians", "2 Thessalonians", "1 Timothy",
    "2 Timothy", "Titus", "Philemon", "Hebrews", "James",
    "1 Peter", "2 Peter", "1 John", "2 John", "3 John",
    "Jude", "Revelation"]

  /** Book entries that carry only a name, as the catalogue first lists them. */
  function Untagged(names: seq<string>): seq<Book> {
    seq(|names|, i requires 0 <= i < |names| => Book(names[i], None))
  }

  /** The `foreach` that sets `'testament'` on every entry of one list. */
  method TagTestament(books: seq<Book>, testament: string) returns (tagged: seq<Book>)
    ensures |tagged| == |books|
    ensures forall i :: 0 <= i < |books| ==> tagged[i] == Book(books[i].name, Some(testament))
  {
    tagged := books;
    var i := 0;
    while i < |tagged|
      invariant 0 <= i <= |tagged| == |books|
      invariant forall k :: 0 <= k < i ==> tagged[k] == Book(books[k].name, Some(testament))
      invariant forall k :: i <= k < |books| ==> tagged[k] == books[k]
    {
      tagged := tagged[i := tagged[i].(testament := Some(testament))];
      i := i + 1;
    }
  }

  /** `ctfw_bible_books()`. */
  method BibleBookCatalogue() returns (books: BibleBooks)
    ensures |books.oldTestament| == 39 && |books.newTestament| == 27 && |books.all| == 66
    ensures forall i :: 0 <= i < 39 ==> books.oldTestament[i] == Book(OldTestamentNames[i], Some("old"))
    ensures forall i :: 0 <= i < 27 ==> books.newTestament[i] == Book(NewTestamentNames[i], Some("new"))
    ensures books.oldTestament[0].name == "Genesis" && books.oldTestament[38].name == "Malachi"
    ensures books.newTestament[0].name == "Matthew" && books.newTestament[26].name == "Revelation"
    ensures books.all == books.oldTestament + books.newTestament
    ensures forall i :: 0 <= i < |books.all| ==> (books.all[i].testament == Some("old") <==> i < 39)
    ensures forall i :: 0 <= i < |books.all| ==> (books.all[i].testament == Some("new") <==> 39 <= i)
  {
    var oldTestament := Untagged(OldTestamentNames);
    var newTestament := Untagged(NewTestamentNames);
    oldTestament := TagTestament(oldTestament, "old");
    newTestament := TagTestament(newTestament, "new");
    books := BibleBooks(oldTestament, newTestament, oldTestament + newTestament);
  }

  /** The group `ctfw_sermon_books_by_testament` files a book under; a missing or other tag means "other". */
  function BucketOf(book: Book): Bucket {
    var testament := if book.testament.Some? then book.testament.value else "";
    if testament == "old" then OldBucket
    else if testament == "new" then NewBucket
    else OtherBucket
  }

  /** A book tagged `old` is filed as old, one tagged `new` as new, and any other or missing tag as other. */
  lemma BucketOfTestament(book: Book)
    ensures BucketOf(book) == OldBucket <==> book.testament == Some("old")
    ensures BucketOf(book) == NewBucket <==> book.testament == Some("new")
    ensures BucketOf(book) == OtherBucket <==> book.testament !in {Some("old"), Some("new")}
  {
  }

  /** The books of `items` filed under `b`, in the order of `items`. */
  function InBucket(items: seq<Book>, b: Bucket): (r: seq<Book>)
    ensures |r| <= |items|
    ensures forall k :: 0 <= k < |r| ==> BucketOf(r[k]) == b
  {
    if items == [] then []
    else
      var last := items[|items| - 1];
      InBucket(items[..|items| - 1], b) + (if BucketOf(last) == b then [last] else [])
  }

  /** The positions in `items` of the books filed under `b`, in increasing order. */
  function BucketPositions(items: seq<Book>, b: Bucket): (p: seq<int>)
    ensures |p| == |InBucket(items, b)|
    ensures forall k :: 0 <= k < |p| ==> 0 <= p[k] < |items|
    ensures forall j, k :: 0 <= j < k < |p| ==> p[j] < p[k]
  {
    if items == [] then []
    else
      var n := |items| - 1;
      BucketPositions(items[..n], b) + (if BucketOf(items[n]) == b then [n] else [])
  }

  /** A group lists exactly the books at its positions, so it keeps their input order. */
  lemma {:induction false} BucketPositionsSelect(items: seq<Book>, b: Bucket)
    ensures forall k :: 0 <= k < |BucketPositions(items, b)| ==>
      items[BucketPositions(items, b)[k]] == InBucket(items, b)[k]
  {
    if items != [] {
      var n := |items| - 1;
      var p, prev := BucketPositions(items, b), BucketPositions(items[..n], b);
      var r, rPrev := InBucket(items, b), InBucket(items[..n], b);
      BucketPositionsSelect(items[..n], b);
      forall k | 0 <= k < |p|
        ensures items[p[k]] == r[k]
      {
        if k < |prev| {
          assert p[k] == prev[k] && r[k] == rPrev[k];
          assert items[prev[k]] == items[..n][prev[k]];
        }
      }
    }
  }

  /** Every book filed under `b` appears at one of the group's positions. */
  lemma {:induction false} BucketPositionsCover(items: seq<Book>, b: Bucket)
    ensures forall i :: 0 <= i < |items| && BucketOf(items[i]) == b ==> i in BucketPositions(items, b)
  {
    if items != [] {
      var n := |items| - 1;
      var p, prev := BucketPositions(items, b), BucketPositions(items[..n], b);
      BucketPositionsCover(items[..n], b);
      forall i | 0 <= i < |items| && BucketOf(items[i]) == b
        ensures i in p
      {
        if i < n {
          assert items[i] == items[..n][i];
          assert i in prev;
        } else {
          assert p == prev + [n];
        }
      }
    }
  }

  /** Filing a list built by appending is filing each part in turn. */
  lemma {:induction false} InBucketAppend(xs: seq<Book>, ys: seq<Book>, b: Bucket)
    ensures InBucket(xs + ys, b) == InBucket(xs, b) + InBucket(ys, b)
    decreases |ys|
  {
    if ys == [] {
      assert xs + ys == xs;
    } else {
      var n := |ys| - 1;
      assert (xs + ys)[..|xs + ys| - 1] == xs + ys[..n];
      InBucketAppend(xs, ys[..n], b);
    }
  }

  /** Every book lands in exactly one group, so the group sizes add up to the input length. */
  lemma {:induction false} PartitionSizes(items: seq<Book>)
    ensures |InBucket(items, OldBucket)| + |InBucket(items, NewBucket)| + |InBucket(items, OtherBucket)| == |items|
  {
    if items != [] {
      PartitionSizes(items[..|items| - 1]);
    }
  }

  /** The three groups together hold the input books, each as often as it occurs there. */
  lemma {:induction false} PartitionMultiset(items: seq<Book>)
    ensures multiset(InBucket(items, OldBucket)) + multiset(InBucket(items, NewBucket)) + multiset(InBucket(items, OtherBucket))
         == multiset(items)
  {
    if items != [] {
      var n := |items| - 1;
      var prefix, one := items[..n], multiset{items[n]};
      PartitionMultiset(prefix);
      assert multiset(items) == multiset(prefix) + one by {
        assert items == prefix + [items[n]];
      }
      LastJoinsOneGroup(items);
      AddToOneGroup(multiset(InBucket(prefix, OldBucket)), multiset(InBucket(prefix, NewBucket)),
                    multiset(InBucket(prefix, OtherBucket)), one,
                    multiset(InBucket(items, OldBucket)), multiset(InBucket(items, NewBucket)),
                    multiset(InBucket(items, OtherBucket)));
    }
  }

  /** The last book of a list joins the group of its testament, and the other two groups stay as they were. */
  lemma LastJoinsOneGroup(items: seq<Book>)
    requires items != []
    ensures var n := |items| - 1;
      var one := multiset{items[n]};
      var o, w, x := multiset(InBucket(items[..n], OldBucket)), multiset(InBucket(items[..n], NewBucket)),
                     multiset(InBucket(items[..n], OtherBucket));
      var o', w', x' := multiset(InBucket(items, OldBucket)), multiset(InBucket(items, NewBucket)),
                        multiset(InBucket(items, OtherBucket));
      (o' == o + one && w' == w && x' == x) || (o' == o && w' == w + one && x' == x)
      || (o' == o && w' == w && x' == x + one)
  {
    var n := |items| - 1;
    var prefix, last := items[..n], items[n];
    match BucketOf(last)
    case OldBucket =>
      assert InBucket(items, OldBucket) == InBucket(prefix, OldBucket) + [last];
    case NewBucket =>
      assert InBucket(items, NewBucket) == InBucket(prefix, NewBucket) + [last];
    case OtherBucket =>
      assert InBucket(items, OtherBucket) == InBucket(prefix, OtherBucket) + [last];
  }

  /** Adding `one` to any one of three multisets adds it to their sum. */
  lemma AddToOneGroup(o: multiset<Book>, w: multiset<Book>, x: multiset<Book>, one: multiset<Book>,
                      o': multiset<Book>, w': multiset<Book>, x': multiset<Book>)
    requires (o' == o + one && w' == w && x' == x) || (o' == o && w' == w + one && x' == x)
          || (o' == o && w' == w && x' == x + one)
    ensures o' + w' + x' == o + w + x + one
  {
  }

  /**
   * Filing the catalogue's `all` list gives back its two testaments and no
   * other books.
   */
  lemma {:induction false} CatalogueFilesByTestament(oldTestament: seq<Book>, newTestament: seq<Book>)
    requires forall i :: 0 <= i < |oldTestament| ==> oldTestament[i].testament == Some("old")
    requires forall i :: 0 <= i < |newTestament| ==> newTestament[i].testament == Some("new")
    ensures InBucket(oldTestament + newTestament, OldBucket) == oldTestament
    ensures InBucket(oldTestament + newTestament, NewBucket) == newTestament
    ensures InBucket(oldTestament + newTestament, OtherBucket) == []
  {
    InBucketAppend(oldTestament, newTestament, OldBucket);
    InBucketAppend(oldTestament, newTestament, NewBucket);
    InBucketAppend(oldTestament, newTestament, OtherBucket);
    AllInBucket(oldTestament, OldBucket);
    AllInBucket(newTestament, NewBucket);
    NoneInBucket(oldTestament, NewBucket);
    NoneInBucket(oldTestament, OtherBucket);
    NoneInBucket(newTestament, OldBucket);
    NoneInBucket(newTestament, OtherBucket);
  }

  /** A list whose books all belong to `b` is filed whole under `b`. */
  lemma {:induction false} AllInBucket(items: seq<Book>, b: Bucket)
    requires forall i :: 0 <= i < |items| ==> BucketOf(items[i]) == b
    ensures InBucket(items, b) == items
  {
    if items != [] {
      var n := |items| - 1;
      AllInBucket(items[..n], b);
      assert items == items[..n] + [items[n]];
    }
  }

  /** A list with no book belonging to `b` leaves `b` empty. */
  lemma {:induction false} NoneInBucket(items: seq<Book>, b: Bucket)
    requires forall i :: 0 <= i < |items| ==> BucketOf(items[i]) != b
    ensures InBucket(items, b) == []
  {
    if items != [] {
      NoneInBucket(items[..|items| - 1], b);
    }
  }

  /**
   * `ctfw_sermon_books_by_testament()`, with `items` the sermon books the
   * archive lists: each book is appended to the group of its testament.
   */
  method SermonBooksByTestament(items: seq<Book>) returns (r: BooksByTestament)
    ensures r.oldBooks == TestamentGroup(OldTestamentLabel, InBucket(items, OldBucket))
    ensures r.newBooks == TestamentGroup(NewTestamentLabel, InBucket(items, NewBucket))
    ensures r.otherBooks == TestamentGroup(OtherBooksLabel, InBucket(items, OtherBucket))
    ensures |r.oldBooks.books| + |r.newBooks.books| + |r.otherBooks.books| == |items|
  {
    r := BooksByTestament(
      TestamentGroup(OldTestamentLabel, []),
      TestamentGroup(NewTestamentLabel, []),
      TestamentGroup(OtherBooksLabel, []));
    for i := 0 to |items|
      invariant r.oldBooks == TestamentGroup(OldTestamentLabel, InBucket(items[..i], OldBucket))
      invariant r.newBooks == TestamentGroup(NewTestamentLabel, InBucket(items[..i], NewBucket))
      invariant r.otherBooks == TestamentGroup(OtherBooksLabel, InBucket(items[..i], OtherBucket))
    {
      assert items[..i + 1][..i] == items[..i];
      var book := items[i];
      var testament := if book.testament.Some? then book.testament.value else "";
      if testament == "old" {
        r := r.(oldBooks := r.oldBooks.(books := r.oldBooks.books + [book]));
      } else if testament == "new" {
        r := r.(newBooks := r.newBooks.(books := r.newBooks.books + [book]));
      } else {
        r := r.(otherBooks := r.otherBooks.(books := r.otherBooks.books + [book]));
      }
    }
    assert items[..|items|] == items;
    PartitionSizes(items);
  }

  /** Grouping the whole catalogue by testament gives back its two testaments. */
  method CatalogueByTestament() returns (catalogue: BibleBooks, grouped: BooksByTestament)
    ensures grouped.oldBooks.books == catalogue.oldTestament && |grouped.oldBooks.books| == 39
    ensures grouped.newBooks.books == catalogue.newTestament && |grouped.newBooks.books| == 27
    ensures grouped.otherBooks.books == []
  {
    catalogue := BibleBookCatalogue();
    grouped := SermonBooksByTestament(catalogue.all);
    CatalogueFilesByTestament(catalogue.oldTestament, catalogue.newTestament);
  }
}
