/**
 * The theme license state kept by `includes/admin/edd-license.php`.
 *
 * The local state is three entries of the host's option store (the key, the
 * status and the expiration date, under names derived from the theme slug)
 * plus two transients (the one-shot activation result and the once-a-day
 * sync marker). The store is a `map<string, string>`; an absent entry is what
 * `get_option` reports as `false`. Each answer of the remote licensing API is
 * a `Reply` passed in as a value, and so are the clock, `strtotime`, the
 * current admin screen and the theme configuration.
 */
module EddLicense {
  import opened PhpBuiltins

  /** `DAY_IN_SECONDS`. */
  const DayInSeconds: int := 86400

  /** The date the remote API reports when it could not look the key up. */
  const EpochSentinel: string := "1970-01-01"

  /** Screen base of the Theme License page. */
  const LicensePage: string := "appearance_page_theme-license"

  /** Transient holding the result of a failed activation until the next render. */
  const ActivationResultTransient: string := "ctfw_edd_license_activation_result"

  /** Transient marking that the daily sync has run. */
  const AutoSyncTransient: string := "ctfw_edd_license_auto_sync"

  /** The value `set_transient(..., true)` leaves behind. */
  const TransientTrue: string := "1"

  /** Screens on which the license notices are shown. */
  const NoticeScreens: set<string> := {"dashboard", "themes", "update-core"}

  /** Screens on which the status is synced with the remote store. */
  const SyncScreens: set<string> := {"dashboard", LicensePage, "themes", "update-core"}

  /** The actions the remote API accepts. */
  const ApiActions: set<string> := {"activate_license", "deactivate_license", "check_license"}

  /** Remote answers to `deactivate_license` that mean the key is no longer active here. */
  const DeactivatedAnswers: set<string> := {"deactivated", "disabled", "failed"}

  /** Remote statuses of `check_license` that mean the key is not active here. */
  const InactiveAnswers: set<string> := {"inactive", "site_inactive", "disabled"}

  /** The theme's licensing configuration (the values `ctfw_edd_license_config` hands out). */
  datatype Config = Config(
    optionsPage: bool,
    activationErrorNotice: string,
    inactiveNotice: string,
    expiredNotice: string,
    expiringSoonNotice: string,
    expiringSoonDays: int,
    renewalUrl: string)

  /**
   * What `ctfw_edd_license_action` returns: `NoReply` stands both for its
   * empty array (no call made, transport error) and for the `null` that
   * `json_decode` gives on a body that does not decode, which every caller
   * treats alike; `Answer` is a decoded object with its `license` and
   * `expires` fields.
   */
  datatype Reply = NoReply | Answer(license: Option<string>, expires: Option<string>)

  /** What `ctfw_edd_license_check_data($key)` returns: the whole data or one field's value. */
  datatype CheckResult = WholeData(data: Reply) | Field(value: string)

  /** The license notices, by their configuration key. */
  datatype Notice = ExpiringSoonNotice | ExpiredNotice | InactiveNotice

  /** The expiration data array; the formatted date is presentation and left out. */
  datatype ExpirationData = ExpirationData(
    expiration: Option<string>,
    expirationTs: Option<int>,
    expiringSoonDays: int,
    expiringSoonTs: int,
    expiringSoon: bool)

  /** A request to `ctfw_edd_license_activation`: its argument and the posted form. */
  datatype Request = Request(
    supports: bool,
    action: string,
    postActivate: bool,
    postDeactivate: bool,
    nonceOk: bool)

  /** The options an activation leaves and whether it set the failure marker. */
  datatype Activation = Activation(options: map<string, string>, failed: bool)

  // ---------------------------------------------------------------------
  // Option names and local values
  // ---------------------------------------------------------------------

  /** `ctfw_edd_license_key_option($append)`: `<slug>_license_key`, then `_<append>` without its leading underscores. */
  function KeyOption(slug: string, append: string): (name: string)
    ensures |name| >= |slug| + 12 && name[..|slug| + 12] == slug + "_license_key"
    ensures !Truthy(append) <==> name == slug + "_license_key"
  {
    if Truthy(append) then slug + "_license_key" + "_" + TrimStart(append, {'_'})
    else slug + "_license_key"
  }

  /** The key entry, `ctfw_edd_license_key_option()`; `OptionNamesDistinct` ties the three names to `KeyOption`. */
  function KeyName(slug: string): string { slug + "_license_key" }

  /** The status entry, `ctfw_edd_license_key_option('status')`. */
  function StatusName(slug: string): string { slug + "_license_key_status" }

  /** The expiration entry, `ctfw_edd_license_key_option('expiration')`. */
  function ExpirationName(slug: string): string { slug + "_license_key_expiration" }

  /** `key_option('status')` is `<slug>_license_key_status`. */
  lemma StatusNameIs(slug: string)
    ensures KeyOption(slug, "status") == StatusName(slug)
  {
    assert TrimStart("status", {'_'}) == "status";
    assert "_license_key" + "_" + "status" == "_license_key_status";
  }

  /** `key_option('expiration')` is `<slug>_license_key_expiration`. */
  lemma ExpirationNameIs(slug: string)
    ensures KeyOption(slug, "expiration") == ExpirationName(slug)
  {
    assert TrimStart("expiration", {'_'}) == "expiration";
    assert "_license_key" + "_" + "expiration" == "_license_key_expiration";
  }

  /**
   * The names the license code reads and writes are `key_option()`,
   * `key_option('status')` and `key_option('expiration')`, and they are
   * three different entries of the store, whatever the slug.
   */
  lemma OptionNamesDistinct(slug: string)
    ensures KeyOption(slug, "") == KeyName(slug)
    ensures KeyOption(slug, "status") == StatusName(slug)
    ensures KeyOption(slug, "expiration") == ExpirationName(slug)
    ensures KeyName(slug) != StatusName(slug) && KeyName(slug) != ExpirationName(slug)
    ensures StatusName(slug) != ExpirationName(slug)
  {
    StatusNameIs(slug);
    ExpirationNameIs(slug);
    OptionNamesDiffer(slug);
  }

  /** The three entry names differ: their lengths do. */
  lemma OptionNamesDiffer(slug: string)
    ensures KeyName(slug) != StatusName(slug) && KeyName(slug) != ExpirationName(slug)
    ensures StatusName(slug) != ExpirationName(slug)
  {
    assert |KeyName(slug)| == |slug| + 12;
    assert |StatusName(slug)| == |slug| + 19;
    assert |ExpirationName(slug)| == |slug| + 23;
  }

  /** Leading underscores of the suffix do not matter. */
  lemma {:induction false} KeyOptionUnderscores(slug: string, append: string)
    requires Truthy(append)
    ensures KeyOption(slug, "_" + append) == KeyOption(slug, append)
  {
    assert ("_" + append)[1..] == append;
  }

  /** `ctfw_edd_license_key()`: the stored key, trimmed; an absent key reads as "". */
  function LicenseKey(opts: map<string, string>, slug: string): (key: string)
    ensures key == [] || (key[0] !in Whitespace && key[|key| - 1] !in Whitespace)
    ensures KeyName(slug) !in opts ==> key == ""
    ensures KeyName(slug) in opts ==> key == Trim(opts[KeyName(slug)])
  {
    if KeyName(slug) in opts then Trim(opts[KeyName(slug)]) else ""
  }

  /** `ctfw_edd_license_status()`: the stored status, `None` where `get_option` gives `false`. */
  function Status(opts: map<string, string>, slug: string): Option<string> {
    if StatusName(slug) in opts then Some(opts[StatusName(slug)]) else None
  }

  /** `ctfw_edd_license_active()`. */
  predicate IsActive(opts: map<string, string>, slug: string) {
    Status(opts, slug) == Some("active")
  }

  /** `ctfw_edd_license_inactive()`: the status is absent or falsy. */
  predicate IsInactive(opts: map<string, string>, slug: string) {
    Status(opts, slug).None? || !Truthy(Status(opts, slug).value)
  }

  /** `ctfw_edd_license_expired()`. */
  predicate IsExpired(opts: map<string, string>, slug: string) {
    Status(opts, slug) == Some("expired")
  }

  /**
   * The status readers in terms of the stored entry: absent reads as `false`,
   * active and expired are exact matches, and inactive is an absent or falsy entry.
   */
  lemma StatusReadsStore(opts: map<string, string>, slug: string)
    ensures Status(opts, slug).Some? <==> StatusName(slug) in opts
    ensures StatusName(slug) in opts ==> Status(opts, slug).value == opts[StatusName(slug)]
    ensures IsActive(opts, slug) <==> StatusName(slug) in opts && opts[StatusName(slug)] == "active"
    ensures IsExpired(opts, slug) <==> StatusName(slug) in opts && opts[StatusName(slug)] == "expired"
    ensures IsInactive(opts, slug) <==> StatusName(slug) !in opts || opts[StatusName(slug)] in {"", "0"}
  {
  }

  /** The documented range of the local status: absent (inactive), `active` or `expired`. */
  predicate StatusValid(opts: map<string, string>, slug: string) {
    Status(opts, slug).None? || Status(opts, slug).value in {"active", "expired"}
  }

  /** The three status predicates never overlap, and on a valid status exactly one holds. */
  lemma StatusPredicatesPartition(opts: map<string, string>, slug: string)
    ensures !(IsActive(opts, slug) && IsExpired(opts, slug))
    ensures !(IsActive(opts, slug) && IsInactive(opts, slug))
    ensures !(IsExpired(opts, slug) && IsInactive(opts, slug))
    ensures StatusValid(opts, slug) ==> IsActive(opts, slug) || IsExpired(opts, slug) || IsInactive(opts, slug)
  {
  }

  /** The part of the store that none of the license operations below touch. */
  function Untouched(opts: map<string, string>, slug: string): map<string, string> {
    opts - {StatusName(slug), ExpirationName(slug)}
  }

  /** Writing the expiration entry leaves the key, the status and the untouched part alone. */
  lemma ExpirationWriteKeeps(opts: map<string, string>, slug: string, value: string)
    ensures Untouched(opts[ExpirationName(slug) := value], slug) == Untouched(opts, slug)
    ensures Status(opts[ExpirationName(slug) := value], slug) == Status(opts, slug)
    ensures LicenseKey(opts[ExpirationName(slug) := value], slug) == LicenseKey(opts, slug)
  {
    OptionNamesDiffer(slug);
  }

  /** Writing the status entry leaves the key, the expiration and the untouched part alone. */
  lemma StatusWriteKeeps(opts: map<string, string>, slug: string, value: string)
    ensures Untouched(opts[StatusName(slug) := value], slug) == Untouched(opts, slug)
    ensures LicenseKey(opts[StatusName(slug) := value], slug) == LicenseKey(opts, slug)
    ensures ExpirationName(slug) in opts[StatusName(slug) := value] <==> ExpirationName(slug) in opts
    ensures ExpirationName(slug) in opts ==> opts[StatusName(slug) := value][ExpirationName(slug)] == opts[ExpirationName(slug)]
  {
    OptionNamesDiffer(slug);
  }

  /** Deleting the status entry leaves the key, the expiration and the untouched part alone. */
  lemma StatusDeleteKeeps(opts: map<string, string>, slug: string)
    ensures Untouched(opts - {StatusName(slug)}, slug) == Untouched(opts, slug)
    ensures LicenseKey(opts - {StatusName(slug)}, slug) == LicenseKey(opts, slug)
    ensures ExpirationName(slug) in opts - {StatusName(slug)} <==> ExpirationName(slug) in opts
    ensures ExpirationName(slug) in opts ==> (opts - {StatusName(slug)})[ExpirationName(slug)] == opts[ExpirationName(slug)]
  {
    OptionNamesDiffer(slug);
  }

  // ---------------------------------------------------------------------
  // Expiration
  // ---------------------------------------------------------------------

  /** The date kept from a remote expiration: the text before the first space, trimmed. */
  function ExpirationDate(expires: string): (date: string)
    ensures ' ' !in date
    ensures date == [] || (date[0] !in Whitespace && date[|date| - 1] !in Whitespace)
    ensures |date| <= |expires|
  {
    Trim(BeforeFirstSpace(expires))
  }

  /** A date with a time of day after it is cut back to the date. */
  lemma {:induction false} ExpirationDateDropsTime(date: string, time: string)
    requires ' ' !in date
    requires date == [] || (date[0] !in Whitespace && date[|date| - 1] !in Whitespace)
    ensures ExpirationDate(date + " " + time) == date
    ensures ExpirationDate(date) == date
  {
    var s := date + " " + time;
    assert s[|date|] == ' ';
    assert BeforeFirstSpace(s) == date;
    assert BeforeFirstSpace(date) == date;
  }

  /**
   * The store after `ctfw_edd_license_update_expiration($expires)`.
   */
  function ExpirationUpdated(opts: map<string, string>, slug: string, expires: string): (r: map<string, string>)
    ensures Untouched(r, slug) == Untouched(opts, slug) && Status(r, slug) == Status(opts, slug)
    ensures LicenseKey(r, slug) == LicenseKey(opts, slug)
    ensures !Truthy(expires) || ExpirationDate(expires) == EpochSentinel ==> r == opts
    ensures Truthy(expires) && ExpirationDate(expires) != EpochSentinel ==>
      ExpirationName(slug) in r && r[ExpirationName(slug)] == ExpirationDate(expires)
    ensures ExpirationName(slug) in r && (ExpirationName(slug) !in opts || r[ExpirationName(slug)] != opts[ExpirationName(slug)]) ==>
      r[ExpirationName(slug)] != EpochSentinel && ' ' !in r[ExpirationName(slug)]
  {
    var date := ExpirationDate(expires);
    if Truthy(expires) && date != EpochSentinel then
      ExpirationWriteKeeps(opts, slug, date);
      opts[ExpirationName(slug) := date]
    else opts
  }

  /** The expiration write does the same to two stores that differ at most in their status entry. */
  lemma ExpirationUpdatedIgnoresStatus(opts: map<string, string>, opts': map<string, string>, slug: string, expires: string)
    requires opts - {StatusName(slug)} == opts' - {StatusName(slug)}
    ensures ExpirationUpdated(opts, slug, expires) - {StatusName(slug)}
         == ExpirationUpdated(opts', slug, expires) - {StatusName(slug)}
  {
    var date := ExpirationDate(expires);
    if Truthy(expires) && date != EpochSentinel {
      OptionNamesDiffer(slug);
      assert opts[ExpirationName(slug) := date] - {StatusName(slug)}
          == (opts - {StatusName(slug)})[ExpirationName(slug) := date];
      assert opts'[ExpirationName(slug) := date] - {StatusName(slug)}
          == (opts' - {StatusName(slug)})[ExpirationName(slug) := date];
    }
  }

  /** Writing the same remote expiration twice is the same as writing it once. */
  lemma ExpirationUpdatedIdempotent(opts: map<string, string>, slug: string, expires: string)
    ensures ExpirationUpdated(ExpirationUpdated(opts, slug, expires), slug, expires) == ExpirationUpdated(opts, slug, expires)
  {
  }

  /** `ctfw_edd_license_expiration_data()`, with `time()` as `now` and `strtotime` as a parameter. */
  function ExpirationDataOf(opts: map<string, string>, slug: string, config: Config,
                            strtotime: string -> Option<int>, now: int): (d: ExpirationData)
    ensures d.expiringSoonDays == config.expiringSoonDays
    ensures d.expiringSoonTs == now + DayInSeconds * config.expiringSoonDays
    ensures ExpirationName(slug) in opts ==> d.expiration == Some(opts[ExpirationName(slug)])
    ensures ExpirationName(slug) !in opts ==> d.expiration.None?
    ensures ExpirationName(slug) in opts && Truthy(opts[ExpirationName(slug)]) ==>
      d.expirationTs == strtotime(opts[ExpirationName(slug)])
    ensures ExpirationName(slug) !in opts || !Truthy(opts[ExpirationName(slug)]) ==> d.expirationTs.None?
    ensures d.expiringSoon <==>
      && !IsExpired(opts, slug)
      && ExpirationName(slug) in opts && Truthy(opts[ExpirationName(slug)])
      && strtotime(opts[ExpirationName(slug)]).Some?
      && strtotime(opts[ExpirationName(slug)]).value != 0
      && strtotime(opts[ExpirationName(slug)]).value < now + DayInSeconds * config.expiringSoonDays
  {
    var expiration := if ExpirationName(slug) in opts then Some(opts[ExpirationName(slug)]) else None;
    var ts := if expiration.Some? && Truthy(expiration.value) then strtotime(expiration.value) else None;
    var soonTs := now + DayInSeconds * config.expiringSoonDays;
    ExpirationData(expiration, ts, config.expiringSoonDays, soonTs,
                   !IsExpired(opts, slug) && ts.Some? && ts.value != 0 && ts.value < soonTs)
  }

  /**
   * Under a 30-day threshold, a stored date 10 days ahead is expiring soon,
   * one 40 days ahead is not, and an expired license never is.
   */
  lemma ExpiringSoonExamples(slug: string, config: Config, now: int, date: string)
    requires now >= 0 && config.expiringSoonDays == 30 && Truthy(date)
    ensures ExpirationDataOf(map[ExpirationName(slug) := date], slug, config,
                             _ => Some(now + 10 * DayInSeconds), now).expiringSoon
    ensures !ExpirationDataOf(map[ExpirationName(slug) := date], slug, config,
                              _ => Some(now + 40 * DayInSeconds), now).expiringSoon
    ensures forall opts, strtotime :: IsExpired(opts, slug) ==>
      !ExpirationDataOf(opts, slug, config, strtotime, now).expiringSoon
  {
    OptionNamesDiffer(slug);
  }

  /** Widening the window never turns "expiring soon" off. */
  lemma ExpiringSoonMonotonic(opts: map<string, string>, slug: string, config: Config, config': Config,
                              strtotime: string -> Option<int>, now: int, now': int)
    requires config'.expiringSoonDays >= config.expiringSoonDays && now' >= now
    requires ExpirationDataOf(opts, slug, config, strtotime, now).expiringSoon
    ensures ExpirationDataOf(opts, slug, config', strtotime, now').expiringSoon
  {
  }

  // ---------------------------------------------------------------------
  // Remote API (the guard only; the HTTP call is the `remote` parameter)
  // ---------------------------------------------------------------------

  /**
   * `ctfw_edd_license_action($action)`: the call is made only with the
   * options page enabled, a known action and a truthy key; otherwise the
   * result is empty.
   */
  function Action(config: Config, action: string, key: string, remote: Reply): (r: Reply)
    ensures r.Answer? ==> config.optionsPage && action in ApiActions && Truthy(key)
    ensures config.optionsPage && action in ApiActions && Truthy(key) ==> r == remote
  {
    if config.optionsPage && action in ApiActions && Truthy(key) then remote else NoReply
  }

  /**
   * `ctfw_edd_license_check_data($key)`, `key == None` standing for the
   * call without a key: a set field gives its value (or "" when empty), an
   * unset field or no key gives the whole data.
   */
  function CheckData(data: Reply, key: Option<string>): (r: CheckResult)
    ensures r.Field? ==>
      || (key == Some("license") && data.Answer? && data.license.Some?)
      || (key == Some("expires") && data.Answer? && data.expires.Some?)
    ensures r.Field? && r.value != "" ==>
      Truthy(r.value) && (data.license == Some(r.value) || data.expires == Some(r.value))
    ensures key.None? ==> r == WholeData(data)
    ensures r.WholeData? ==> r == WholeData(data)
    ensures key == Some("license") && data.Answer? && data.license.Some? ==>
      r == Field(if Truthy(data.license.value) then data.license.value else "")
    ensures key == Some("expires") && data.Answer? && data.expires.Some? ==>
      r == Field(if Truthy(data.expires.value) then data.expires.value else "")
  {
    match (data, key)
    case (Answer(Some(l), _), Some("license")) => Field(if Truthy(l) then l else "")
    case (Answer(_, Some(e)), Some("expires")) => Field(if Truthy(e) then e else "")
    case _ => WholeData(data)
  }

  /** `ctfw_edd_license_check()`: the remote status of the key, if the answer carries one. */
  function CheckStatus(config: Config, key: string, remote: Reply): (status: Option<string>)
    ensures status.Some? ==> config.optionsPage && Truthy(key) && remote.Answer? && remote.license.Some?
    ensures status.Some? && Truthy(status.value) ==> remote.license == status
    ensures config.optionsPage && Truthy(key) && remote.Answer? && remote.license.Some? ==>
      status == Some(if Truthy(remote.license.value) then remote.license.value else "")
    ensures status == Some("valid") <==>
      config.optionsPage && Truthy(key) && remote.Answer? && remote.license == Some("valid")
    ensures status == Some("inactive") <==>
      config.optionsPage && Truthy(key) && remote.Answer? && remote.license == Some("inactive")
  {
    match CheckData(Action(config, "check_license", key, remote), Some("license"))
    case Field(v) => Some(v)
    case WholeData(_) => None
  }

  // ---------------------------------------------------------------------
  // Sync, sanitize and activation, as functions of the old store
  // ---------------------------------------------------------------------

  /** The status a sync leaves, given the remote `license` field. */
  function SyncedStatus(old_: Option<string>, remote: Option<string>): (s: Option<string>)
    ensures remote == Some("valid") ==> s == Some("active")
    ensures remote.Some? && remote.value in InactiveAnswers ==> s == None
    ensures remote == Some("expired") ==> s == Some("expired")
    ensures remote.None? || remote.value !in InactiveAnswers + {"valid", "expired"} ==> s == old_
  {
    if remote == Some("valid") then Some("active")
    else if remote.Some? && remote.value in InactiveAnswers then None
    else if remote == Some("expired") then Some("expired")
    else old_
  }

  /** The store with its status entry set to `s` (`None` deletes it). */
  function WithStatus(opts: map<string, string>, slug: string, s: Option<string>): (r: map<string, string>)
    ensures Status(r, slug) == s
    ensures Untouched(r, slug) == Untouched(opts, slug)
    ensures LicenseKey(r, slug) == LicenseKey(opts, slug)
    ensures ExpirationName(slug) in r <==> ExpirationName(slug) in opts
    ensures ExpirationName(slug) in opts ==> r[ExpirationName(slug)] == opts[ExpirationName(slug)]
    ensures s == Status(opts, slug) ==> r == opts
    ensures r - {StatusName(slug)} == opts - {StatusName(slug)}
  {
    // Writing the value already stored, or deleting an absent entry, leaves the store as it was.
    if s == Status(opts, slug) then opts
    else if s.Some? then
      StatusWriteKeeps(opts, slug, s.value);
      opts[StatusName(slug) := s.value]
    else
      StatusDeleteKeeps(opts, slug);
      opts - {StatusName(slug)}
  }

  /**
   * The store after `ctfw_edd_license_sync()` with `remote` the answer to
   * the `check_license` call it makes.
   */
  function SyncedOptions(opts: map<string, string>, slug: string, config: Config, remote: Reply): (r: map<string, string>)
    ensures Untouched(r, slug) == Untouched(opts, slug)
    ensures LicenseKey(r, slug) == LicenseKey(opts, slug)
    ensures remote.NoReply? || remote == Answer(None, None) ==> r == opts
    ensures !config.optionsPage || !Truthy(LicenseKey(opts, slug)) ==> r == opts
    ensures config.optionsPage && Truthy(LicenseKey(opts, slug)) && remote.Answer? ==>
      Status(r, slug) == SyncedStatus(Status(opts, slug), remote.license)
    ensures remote.Answer? && remote.license.Some? && remote.license.value !in InactiveAnswers + {"valid", "expired"} ==>
      Status(r, slug) == Status(opts, slug)
    ensures StatusValid(opts, slug) ==> StatusValid(r, slug)
    ensures ExpirationName(slug) in r && (ExpirationName(slug) !in opts || r[ExpirationName(slug)] != opts[ExpirationName(slug)]) ==>
      r[ExpirationName(slug)] != EpochSentinel && ' ' !in r[ExpirationName(slug)]
    ensures config.optionsPage && Truthy(LicenseKey(opts, slug)) && remote.Answer? ==>
      r == SyncAnswer(opts, slug, remote.license, remote.expires)
  {
    OptionNamesDiffer(slug);
    if !config.optionsPage then opts
    else
      match Action(config, "check_license", LicenseKey(opts, slug), remote)
      case NoReply => opts
      case Answer(license, expires) => SyncAnswer(opts, slug, license, expires)
  }

  /** The answered half of a sync: follow the remote status, then write the remote expiration if there is one. */
  function SyncAnswer(opts: map<string, string>, slug: string, license: Option<string>, expires: Option<string>): map<string, string> {
    var withStatus := WithStatus(opts, slug, SyncedStatus(Status(opts, slug), license));
    if expires.Some? then ExpirationUpdated(withStatus, slug, expires.value) else withStatus
  }

  /**
   * Apart from the status, a sync changes only the expiration, and only as
   * the expiration write of an answered `expires` does.
   */
  lemma SyncedExpiration(opts: map<string, string>, slug: string, config: Config, remote: Reply)
    ensures SyncedOptions(opts, slug, config, remote) - {StatusName(slug)} ==
      (if config.optionsPage && Truthy(LicenseKey(opts, slug)) && remote.Answer? && remote.expires.Some?
       then ExpirationUpdated(opts, slug, remote.expires.value) else opts) - {StatusName(slug)}
  {
    if config.optionsPage && Truthy(LicenseKey(opts, slug)) && remote.Answer? {
      var withStatus := WithStatus(opts, slug, SyncedStatus(Status(opts, slug), remote.license));
      if remote.expires.Some? {
        ExpirationUpdatedIgnoresStatus(withStatus, opts, slug, remote.expires.value);
      }
    }
  }

  /** A remote `valid` always leaves the license active, whatever the local status was. */
  lemma SyncValidActivates(opts: map<string, string>, slug: string, config: Config, expires: Option<string>)
    requires config.optionsPage && Truthy(LicenseKey(opts, slug))
    ensures IsActive(SyncedOptions(opts, slug, config, Answer(Some("valid"), expires)), slug)
  {
  }

  /** Syncing twice against the same answer is the same as syncing once. */
  lemma SyncIdempotent(opts: map<string, string>, slug: string, config: Config, remote: Reply)
    ensures SyncedOptions(SyncedOptions(opts, slug, config, remote), slug, config, remote)
         == SyncedOptions(opts, slug, config, remote)
  {
    if config.optionsPage && Truthy(LicenseKey(opts, slug)) && remote.Answer? {
      SyncAnswerIdempotent(opts, slug, remote.license, remote.expires);
    }
  }

  /** Applying the same answer twice is applying it once. */
  lemma SyncAnswerIdempotent(opts: map<string, string>, slug: string, license: Option<string>, expires: Option<string>)
    ensures SyncAnswer(SyncAnswer(opts, slug, license, expires), slug, license, expires) == SyncAnswer(opts, slug, license, expires)
  {
    var ws := WithStatus(opts, slug, SyncedStatus(Status(opts, slug), license));
    var once := SyncAnswer(opts, slug, license, expires);
    assert Status(once, slug) == Status(ws, slug);
    assert WithStatus(once, slug, SyncedStatus(Status(once, slug), license)) == once;
    if expires.Some? {
      ExpirationUpdatedIdempotent(ws, slug, expires.value);
    }
  }

  /**
   * The store after `ctfw_edd_license_sanitize($new)`: status and expiration
   * are deleted when a truthy stored key (neither empty nor `"0"`) differs from the untrimmed new value.
   */
  function SanitizedOptions(opts: map<string, string>, slug: string, value: string): (r: map<string, string>)
    ensures Untouched(r, slug) == Untouched(opts, slug)
    ensures Truthy(LicenseKey(opts, slug)) && LicenseKey(opts, slug) != value ==>
      StatusName(slug) !in r && ExpirationName(slug) !in r
    ensures !Truthy(LicenseKey(opts, slug)) || LicenseKey(opts, slug) == value ==> r == opts
    ensures StatusValid(opts, slug) ==> StatusValid(r, slug)
  {
    var old_ := LicenseKey(opts, slug);
    if Truthy(old_) && old_ != value then opts - {StatusName(slug), ExpirationName(slug)} else opts
  }

  /**
   * Re-saving the stored key with a space in front still clears the status,
   * because the comparison is made before the new value is trimmed. The key
   * holds a character no numeric string has, so PHP compares the two as strings.
   */
  lemma SanitizeComparesUntrimmed(opts: map<string, string>, slug: string)
    requires Truthy(LicenseKey(opts, slug)) && IsActive(opts, slug)
    requires NeverNumeric(LicenseKey(opts, slug))
    ensures Trim(" " + LicenseKey(opts, slug)) == LicenseKey(opts, slug)
    ensures IsInactive(SanitizedOptions(opts, slug, " " + LicenseKey(opts, slug)), slug)
  {
    var key := LicenseKey(opts, slug);
    TrimPadded(key);
    assert " " + key != key by {
      assert |" " + key| != |key|;
    }
    OptionNamesDiffer(slug);
  }

  /** The API action an activation request resolves to; `None` when the request does nothing. */
  function RequestedAction(req: Request): (action: Option<string>)
    ensures action.Some? ==> req.supports
    ensures action.Some? && !Truthy(req.action) ==>
      req.nonceOk && action.value == (if req.postActivate then "activate_license" else "deactivate_license")
    ensures req.supports && Truthy(req.action) ==> action == Some(req.action)
    ensures !Truthy(req.action) && !req.postActivate && !req.postDeactivate ==> action.None?
    ensures req.supports && !Truthy(req.action) && (req.postActivate || req.postDeactivate) && req.nonceOk ==>
      action == Some(if req.postActivate then "activate_license" else "deactivate_license")
  {
    if !req.supports then None
    else if !(Truthy(req.action) || req.postActivate || req.postDeactivate) then None
    else if Truthy(req.action) then Some(req.action)
    else if !req.nonceOk then None
    else Some(if req.postActivate then "activate_license" else "deactivate_license")
  }

  /**
   * The effect of `ctfw_edd_license_activation()`: `remote` answers the
   * requested action and `check` answers the fallback `check_license` call.
   */
  function ActivationOf(opts: map<string, string>, slug: string, config: Config,
                        req: Request, remote: Reply, check: Reply): (a: Activation)
    ensures Untouched(a.options, slug) == Untouched(opts, slug)
    ensures LicenseKey(a.options, slug) == LicenseKey(opts, slug)
    ensures a.failed <==>
      && RequestedAction(req) == Some("activate_license")
      && Action(config, "activate_license", LicenseKey(opts, slug), remote).Answer?
      && remote.license != Some("valid")
      && CheckStatus(config, LicenseKey(opts, slug), check) != Some("valid")
    ensures a.failed ==> Status(a.options, slug) == Status(opts, slug)
    ensures RequestedAction(req).None? ==> a == Activation(opts, false)
    ensures RequestedAction(req).Some? && Action(config, RequestedAction(req).value, LicenseKey(opts, slug), remote).NoReply? ==>
      a == Activation(opts, false)
    ensures StatusValid(opts, slug) ==> StatusValid(a.options, slug)
  {
    var key := LicenseKey(opts, slug);
    match RequestedAction(req)
    case None => Activation(opts, false)
    case Some(action) =>
      match Action(config, action, key, remote)
      case NoReply => Activation(opts, false)
      case Answer(license, expires) =>
        AnsweredActivation(opts, slug, action, license, expires, CheckStatus(config, key, check))
  }

  /**
   * Apart from the status, an activation request changes only the
   * expiration, and only as the expiration write of an answered `expires` does.
   */
  lemma ActivationExpiration(opts: map<string, string>, slug: string, config: Config,
                             req: Request, remote: Reply, check: Reply)
    ensures ActivationOf(opts, slug, config, req, remote, check).options - {StatusName(slug)} ==
      (if RequestedAction(req).Some? && Action(config, RequestedAction(req).value, LicenseKey(opts, slug), remote).Answer?
          && remote.expires.Some?
       then ExpirationUpdated(opts, slug, remote.expires.value) else opts) - {StatusName(slug)}
  {
  }

  /** An answered `activate_license` succeeds: the answer or the fallback check says `valid`. */
  predicate Activates(action: string, license: Option<string>, checked: Option<string>) {
    action == "activate_license" && (license == Some("valid") || checked == Some("valid"))
  }

  /**
   * An answered `deactivate_license` takes effect: the answer is `deactivated`,
   * `disabled` or `failed`, or the fallback check says `inactive`.
   */
  predicate Deactivates(action: string, license: Option<string>, checked: Option<string>) {
    action == "deactivate_license" && ((license.Some? && license.value in DeactivatedAnswers) || checked == Some("inactive"))
  }

  /**
   * What an answered activation request does, given the answer's fields and
   * the status the fallback check reports.
   */
  function AnsweredActivation(opts: map<string, string>, slug: string, action: string,
                              license: Option<string>, expires: Option<string>, checked: Option<string>): (a: Activation)
    ensures Untouched(a.options, slug) == Untouched(opts, slug)
    ensures LicenseKey(a.options, slug) == LicenseKey(opts, slug)
    ensures a.failed <==> action == "activate_license" && !Activates(action, license, checked)
    ensures Activates(action, license, checked) ==> Status(a.options, slug) == Some("active")
    ensures Deactivates(action, license, checked) ==> Status(a.options, slug).None?
    ensures !Activates(action, license, checked) && !Deactivates(action, license, checked) ==>
      Status(a.options, slug) == Status(opts, slug)
    ensures StatusValid(opts, slug) ==> StatusValid(a.options, slug)
    ensures a.options - {StatusName(slug)} ==
      (if expires.Some? then ExpirationUpdated(opts, slug, expires.value) else opts) - {StatusName(slug)}
  {
    OptionNamesDiffer(slug);
    var step := AnswerStatus(opts, slug, action, license, checked);
    if expires.Some? then
      ExpirationUpdatedIgnoresStatus(step.options, opts, slug, expires.value);
      Activation(ExpirationUpdated(step.options, slug, expires.value), step.failed)
    else step
  }

  /** The status half of an answered request, before the expiration is written. */
  function AnswerStatus(opts: map<string, string>, slug: string, action: string,
                        license: Option<string>, checked: Option<string>): (a: Activation)
    ensures Untouched(a.options, slug) == Untouched(opts, slug)
    ensures LicenseKey(a.options, slug) == LicenseKey(opts, slug)
    ensures a.failed <==> action == "activate_license" && !Activates(action, license, checked)
    ensures Activates(action, license, checked) ==> Status(a.options, slug) == Some("active")
    ensures Deactivates(action, license, checked) ==> Status(a.options, slug).None?
    ensures !Activates(action, license, checked) && !Deactivates(action, license, checked) ==> a.options == opts
    ensures a.options - {StatusName(slug)} == opts - {StatusName(slug)}
  {
    if Activates(action, license, checked) then Activation(WithStatus(opts, slug, Some("active")), false)
    else if action == "activate_license" then Activation(opts, true)
    else if Deactivates(action, license, checked) then Activation(WithStatus(opts, slug, None), false)
    else Activation(opts, false)
  }

  /**
   * An answered activation makes the license active exactly when the answer
   * or the fallback check says `valid`; otherwise it sets the failure marker
   * and keeps the status.
   */
  lemma ActivateOutcome(opts: map<string, string>, slug: string, config: Config, req: Request,
                        license: Option<string>, expires: Option<string>, check: Reply)
    requires RequestedAction(req) == Some("activate_license")
    requires config.optionsPage && Truthy(LicenseKey(opts, slug))
    ensures var a := ActivationOf(opts, slug, config, req, Answer(license, expires), check);
      var valid := license == Some("valid") || (check.Answer? && check.license == Some("valid"));
      && (valid ==> IsActive(a.options, slug) && !a.failed)
      && (!valid ==> a.failed && Status(a.options, slug) == Status(opts, slug))
  {
    var checked := CheckStatus(config, LicenseKey(opts, slug), check);
    assert ActivationOf(opts, slug, config, req, Answer(license, expires), check)
        == AnsweredActivation(opts, slug, "activate_license", license, expires, checked);
  }

  /**
   * An answered deactivation deletes the status exactly when the answer is
   * `deactivated`, `disabled` or `failed`, or the fallback check says
   * `inactive`; otherwise the status is kept.
   */
  lemma DeactivateOutcome(opts: map<string, string>, slug: string, config: Config, req: Request,
                          license: Option<string>, expires: Option<string>, check: Reply)
    requires RequestedAction(req) == Some("deactivate_license")
    requires config.optionsPage && Truthy(LicenseKey(opts, slug))
    ensures var a := ActivationOf(opts, slug, config, req, Answer(license, expires), check);
      var gone := (license.Some? && license.value in DeactivatedAnswers)
                  || CheckStatus(config, LicenseKey(opts, slug), check) == Some("inactive");
      && !a.failed
      && (gone ==> Status(a.options, slug).None?)
      && (!gone ==> Status(a.options, slug) == Status(opts, slug))
  {
    var checked := CheckStatus(config, LicenseKey(opts, slug), check);
    assert ActivationOf(opts, slug, config, req, Answer(license, expires), check)
        == AnsweredActivation(opts, slug, "deactivate_license", license, expires, checked);
  }

  // ---------------------------------------------------------------------
  // Notices and renewal
  // ---------------------------------------------------------------------

  /** The configured message of a notice. */
  function NoticeMessage(config: Config, notice: Notice): string {
    match notice
    case ExpiringSoonNotice => config.expiringSoonNotice
    case ExpiredNotice => config.expiredNotice
    case InactiveNotice => config.inactiveNotice
  }

  /**
   * The notice `ctfw_edd_license_notice()` shows: expiring soon before
   * expired before inactive, only on the dashboard, themes and updates
   * screens, and only when its message is configured.
   */
  function SelectedNotice(opts: map<string, string>, slug: string, config: Config,
                          supports: bool, canEdit: bool, screen: string,
                          strtotime: string -> Option<int>, now: int): (n: Option<Notice>)
    ensures n.Some? ==> supports && canEdit && screen in NoticeScreens && Truthy(NoticeMessage(config, n.value))
    ensures n == Some(ExpiringSoonNotice) ==>
      IsActive(opts, slug) && ExpirationDataOf(opts, slug, config, strtotime, now).expiringSoon
    ensures n == Some(ExpiredNotice) ==> IsExpired(opts, slug)
    ensures n == Some(InactiveNotice) ==> !IsActive(opts, slug) && !IsExpired(opts, slug)
    ensures supports && canEdit && screen in NoticeScreens && !IsActive(opts, slug) ==>
      (n.Some? <==> Truthy(if IsExpired(opts, slug) then config.expiredNotice else config.inactiveNotice))
    ensures IsActive(opts, slug) && !ExpirationDataOf(opts, slug, config, strtotime, now).expiringSoon ==> n.None?
    ensures supports && canEdit && screen in NoticeScreens && IsActive(opts, slug)
            && ExpirationDataOf(opts, slug, config, strtotime, now).expiringSoon ==>
      (n == Some(ExpiringSoonNotice) <==> Truthy(config.expiringSoonNotice))
  {
    if !supports || !canEdit || screen !in NoticeScreens then None
    else
      var data := ExpirationDataOf(opts, slug, config, strtotime, now);
      var notice :=
        if IsActive(opts, slug) && data.expiringSoon then Some(ExpiringSoonNotice)
        else if IsExpired(opts, slug) then Some(ExpiredNotice)
        else if !IsActive(opts, slug) then Some(InactiveNotice)
        else None;
      if notice.Some? && Truthy(NoticeMessage(config, notice.value)) then notice else None
  }

  /** The placeholder in the renewal URL that the key replaces. */
  const KeyPlaceholder: string := "{license_key}"

  /** `ctfw_edd_license_renewal_url()`: every `{license_key}` in the configured URL replaced by the key. */
  function RenewalUrl(opts: map<string, string>, slug: string, config: Config): (url: string)
    ensures forall c :: c in url ==> c in config.renewalUrl || c in LicenseKey(opts, slug)
  {
    Replace(config.renewalUrl, KeyPlaceholder, LicenseKey(opts, slug))
  }

  /**
   * The first placeholder of the renewal URL gets the key spliced in its
   * place, and the rest of the URL is scanned for further placeholders.
   */
  lemma RenewalUrlSplicesKey(opts: map<string, string>, slug: string, config: Config, base: string, rest: string)
    requires config.renewalUrl == base + KeyPlaceholder + rest
    requires forall i :: 0 <= i < |base| ==> !OccursAt(config.renewalUrl, KeyPlaceholder, i)
    ensures RenewalUrl(opts, slug, config)
         == base + LicenseKey(opts, slug) + Replace(rest, KeyPlaceholder, LicenseKey(opts, slug))
    ensures !Occurs(rest, KeyPlaceholder) ==> RenewalUrl(opts, slug, config) == base + LicenseKey(opts, slug) + rest
  {
    ReplaceFirst(base, KeyPlaceholder, rest, LicenseKey(opts, slug));
    if !Occurs(rest, KeyPlaceholder) {
      ReplaceAbsent(rest, KeyPlaceholder, LicenseKey(opts, slug));
    }
  }

  /** A URL without the placeholder is used as configured. */
  lemma RenewalUrlWithoutPlaceholder(opts: map<string, string>, slug: string, config: Config)
    requires !Occurs(config.renewalUrl, KeyPlaceholder)
    ensures RenewalUrl(opts, slug, config) == config.renewalUrl
  {
    ReplaceAbsent(config.renewalUrl, KeyPlaceholder, LicenseKey(opts, slug));
  }

  /** `get_transient($name)` is truthy. */
  predicate TransientSet(transients: map<string, string>, name: string) {
    name in transients && Truthy(transients[name])
  }

  // ---------------------------------------------------------------------
  // The store, updated in place
  // ---------------------------------------------------------------------

  /** The option and transient store of one theme, updated by the license operations. */
  class License {
    const slug: string
    const config: Config
    var options: map<string, string>
    var transients: map<string, string>

    /** The local status is absent, `active` or `expired`. */
    ghost predicate Valid()
      reads this
    {
      StatusValid(options, slug)
    }

    constructor (slug: string, config: Config, options: map<string, string>, transients: map<string, string>)
      ensures this.slug == slug && this.config == config
      ensures this.options == options && this.transients == transients
    {
      this.slug := slug;
      this.config := config;
      this.options := options;
      this.transients := transients;
    }

    /** `update_option` of the status entry. */
    method UpdateStatus(value: string)
      modifies this`options
      ensures options == WithStatus(old(options), slug, Some(value))
    {
      OptionNamesDiffer(slug);
      options := options[StatusName(slug) := value];
      assert old(Status(options, slug)) == Some(value) ==> options == old(options);
    }

    /** `delete_option` of the status entry. */
    method DeleteStatus()
      modifies this`options
      ensures options == WithStatus(old(options), slug, None)
    {
      OptionNamesDiffer(slug);
      options := options - {StatusName(slug)};
      assert old(Status(options, slug)).None? ==> options == old(options);
    }

    /** `ctfw_edd_license_update_expiration($expires)`. */
    method UpdateExpiration(expires: string)
      modifies this`options
      ensures options == ExpirationUpdated(old(options), slug, expires)
      ensures old(Valid()) ==> Valid()
    {
      if Truthy(expires) {
        var date := BeforeFirstSpace(expires);
        date := Trim(date);
        if date != EpochSentinel {
          options := options[ExpirationName(slug) := date];
        }
      }
    }

    /** `ctfw_edd_license_sync()`; `remote` answers its `check_license` call. */
    method Sync(remote: Reply)
      modifies this`options
      ensures options == SyncedOptions(old(options), slug, config, remote)
      ensures old(Valid()) ==> Valid()
    {
      if !config.optionsPage {
        return;
      }
      var data := Action(config, "check_license", LicenseKey(options, slug), remote);
      if data.Answer? {
        ghost var before := options;
        SyncStatus(data.license);
        if data.expires.Some? {
          UpdateExpiration(data.expires.value);
        }
        assert options == SyncAnswer(before, slug, data.license, data.expires);
      }
    }

    /** The status half of a sync: follow the remote `license` field. */
    method SyncStatus(status: Option<string>)
      modifies this`options
      ensures options == WithStatus(old(options), slug, SyncedStatus(Status(old(options), slug), status))
    {
      if status == Some("valid") {
        UpdateStatus("active");
      } else if status.Some? && status.value in InactiveAnswers {
        DeleteStatus();
      } else if status == Some("expired") {
        UpdateStatus("expired");
      }
    }

    /** `ctfw_edd_license_sanitize($new)`: returns the trimmed key. */
    method Sanitize(value: string) returns (sanitized: string)
      modifies this`options
      ensures sanitized == Trim(value)
      ensures options == SanitizedOptions(old(options), slug, value)
      ensures old(Valid()) ==> Valid()
    {
      var old_ := LicenseKey(options, slug);
      if Truthy(old_) && old_ != value {
        options := options - {StatusName(slug)};
        options := options - {ExpirationName(slug)};
      }
      sanitized := Trim(value);
    }

    /** Saving the key through the registered setting: sanitize, then store the result. */
    method SaveKey(value: string)
      modifies this`options
      ensures options == SanitizedOptions(old(options), slug, value)[KeyName(slug) := Trim(value)]
      ensures LicenseKey(options, slug) == Trim(value)
      ensures Truthy(LicenseKey(old(options), slug)) && LicenseKey(old(options), slug) != Trim(value) ==>
        Status(options, slug).None? && ExpirationName(slug) !in options
      ensures old(Valid()) ==> Valid()
    {
      ghost var oldKey := LicenseKey(options, slug);
      var sanitized := Sanitize(value);
      ghost var cleared := options;
      OptionNamesDiffer(slug);
      TrimIdempotent(value);
      options := options[KeyName(slug) := sanitized];
      assert Status(options, slug) == Status(cleared, slug);
      assert ExpirationName(slug) in options <==> ExpirationName(slug) in cleared;
      assert oldKey == value ==> Trim(value) == value;
    }

    /**
     * `ctfw_edd_license_activation()`; `remote` answers the requested action
     * and `check` the fallback `check_license` call.
     */
    method Activate(req: Request, remote: Reply, check: Reply)
      modifies this`options, this`transients
      ensures var a := ActivationOf(old(options), slug, config, req, remote, check);
        && options == a.options
        && transients == if a.failed then old(transients)[ActivationResultTransient := "fail"] else old(transients)
      ensures old(Valid()) ==> Valid()
    {
      ghost var outcome := ActivationOf(options, slug, config, req, remote, check);
      if !req.supports {
        assert outcome == Activation(options, false);
        return;
      }
      var action := req.action;
      if Truthy(action) || req.postActivate || req.postDeactivate {
        if !Truthy(action) {
          if !req.nonceOk {
            assert outcome == Activation(options, false);
            return;
          }
          action := if req.postActivate then "activate_license" else "deactivate_license";
        }
        assert RequestedAction(req) == Some(action);
        var key := LicenseKey(options, slug);
        var data := Action(config, action, key, remote);
        if data.Answer? {
          assert outcome == AnsweredActivation(options, slug, action, data.license, data.expires, CheckStatus(config, key, check));
          HandleAnswer(action, key, data.license, data.expires, check);
        } else {
          assert outcome == Activation(options, false);
        }
      } else {
        assert outcome == Activation(options, false);
      }
    }

    /** The part of `ctfw_edd_license_activation()` that acts on an answer. */
    method HandleAnswer(action: string, key: string, license: Option<string>, expires: Option<string>, check: Reply)
      modifies this`options, this`transients
      ensures var a := AnsweredActivation(old(options), slug, action, license, expires, CheckStatus(config, key, check));
        && options == a.options
        && transients == if a.failed then old(transients)[ActivationResultTransient := "fail"] else old(transients)
    {
      SetAnswerStatus(action, key, license, check);
      if expires.Some? {
        UpdateExpiration(expires.value);
      }
    }

    /** The status half of an answered request: set or delete the status, or mark the failure. */
    method SetAnswerStatus(action: string, key: string, license: Option<string>, check: Reply)
      modifies this`options, this`transients
      ensures var a := AnswerStatus(old(options), slug, action, license, CheckStatus(config, key, check));
        && options == a.options
        && transients == if a.failed then old(transients)[ActivationResultTransient := "fail"] else old(transients)
    {
      if action == "activate_license" {
        if license == Some("valid") || CheckStatus(config, key, check) == Some("valid") {
          UpdateStatus("active");
        } else {
          transients := transients[ActivationResultTransient := "fail"];
        }
      } else if action == "deactivate_license"
                && ((license.Some? && license.value in DeactivatedAnswers)
                    || CheckStatus(config, key, check) == Some("inactive")) {
        DeleteStatus();
      }
    }

    /**
     * `ctfw_edd_license_activation_failure_notice()`: on the license page,
     * reports a pending failure once and consumes the marker.
     */
    method ActivationFailureNotice(supports: bool, screen: string) returns (shown: bool)
      modifies this`transients
      ensures shown <==>
        supports && screen == LicensePage && ActivationResultTransient in old(transients)
        && old(transients)[ActivationResultTransient] == "fail" && Truthy(config.activationErrorNotice)
      ensures transients ==
        if supports && screen == LicensePage && TransientSet(old(transients), ActivationResultTransient)
        then old(transients) - {ActivationResultTransient} else old(transients)
    {
      shown := false;
      if !supports || screen != LicensePage {
        return;
      }
      if TransientSet(transients, ActivationResultTransient) {
        shown := transients[ActivationResultTransient] == "fail" && Truthy(config.activationErrorNotice);
        transients := transients - {ActivationResultTransient};
      }
    }

    /**
     * `ctfw_edd_license_auto_sync()`: on the license page always, on the
     * other sync screens once a day, sync and set the daily marker.
     */
    method AutoSync(supports: bool, isAdmin: bool, screen: string, remote: Reply) returns (synced: bool)
      modifies this`options, this`transients
      ensures synced <==>
        supports && isAdmin && config.optionsPage && screen in SyncScreens
        && (!TransientSet(old(transients), AutoSyncTransient) || screen == LicensePage)
      ensures synced ==> (options == SyncedOptions(old(options), slug, config, remote)
                          && transients == old(transients)[AutoSyncTransient := TransientTrue])
      ensures !synced ==> options == old(options) && transients == old(transients)
      ensures old(Valid()) ==> Valid()
    {
      synced := false;
      if !supports || !isAdmin || !config.optionsPage {
        return;
      }
      if screen in SyncScreens {
        if !TransientSet(transients, AutoSyncTransient) || screen == LicensePage {
          Sync(remote);
          transients := transients[AutoSyncTransient := TransientTrue];
          synced := true;
        }
      }
    }
  }

  // ---------------------------------------------------------------------
  // Request sequences
  // ---------------------------------------------------------------------

  /**
   * A rejected activation is reported on the next license-page render and
   * not on the one after it.
   */
  method FailureReportedOnce(slug: string, config: Config, key: string, remote: Reply, check: Reply)
    returns (first: bool, second: bool)
    requires config.optionsPage && Truthy(config.activationErrorNotice) && Truthy(Trim(key))
    requires remote.Answer? && remote.license != Some("valid")
    requires !(check.Answer? && check.license == Some("valid"))
    ensures first && !second
  {
    var opts := map[KeyName(slug) := key];
    var license := new License(slug, config, opts, map[]);
    var req := Request(true, "activate_license", false, false, false);
    assert RequestedAction(req) == Some("activate_license");
    assert LicenseKey(opts, slug) == Trim(key);
    ActivateOutcome(opts, slug, config, req, remote.license, remote.expires, check);
    license.Activate(req, remote, check);
    first, second := RenderLicensePageTwice(license);
  }

  /** Two renders of the license page after a failed activation: the first reports it, the second does not. */
  method RenderLicensePageTwice(license: License) returns (first: bool, second: bool)
    requires license.transients == map[ActivationResultTransient := "fail"]
    requires Truthy(license.config.activationErrorNotice)
    modifies license
    ensures first && !second
  {
    first := license.ActivationFailureNotice(true, LicensePage);
    assert ActivationResultTransient !in license.transients;
    second := license.ActivationFailureNotice(true, LicensePage);
  }

  /**
   * The daily marker suppresses a second sync on the dashboard, but never
   * a sync on the license page.
   */
  method DailySyncGate(slug: string, config: Config, remote: Reply)
    returns (dashboard1: bool, dashboard2: bool, licensePage: bool)
    requires config.optionsPage
    ensures dashboard1 && !dashboard2 && licensePage
  {
    var license := new License(slug, config, map[], map[]);
    dashboard1 := license.AutoSync(true, true, "dashboard", remote);
    dashboard2 := license.AutoSync(true, true, "dashboard", remote);
    licensePage := license.AutoSync(true, true, LicensePage, remote);
  }
}
