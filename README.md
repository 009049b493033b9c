# Theme license state and Bible book grouping

This project models two parts of a WordPress church-theme framework.

The first part is the theme license code in `includes/admin/edd-license.php`. The site keeps three
entries in its option store, under names derived from the theme slug: the license key, the local
status (`active`, `expired`, or absent for inactive) and the expiration date. It also keeps two
transients: the one-shot activation-failure marker and the once-a-day sync marker. The code reconciles
this local state with the answers of a remote Easy Digital Downloads licensing API. The module
`EddLicense` covers:

- the option names;
- the status predicates;
- the expiration update and the "expiring soon" test;
- the guard on remote calls and the reading of their answers;
- sync, activation and deactivation;
- key sanitisation;
- the failure notice and notice selection;
- the renewal URL;
- the daily auto-sync gate.

Each state change is written twice. A pure function (`SyncedOptions`, `ActivationOf`,
`SanitizedOptions`, `ExpirationUpdated`) states the new store in terms of the old one, and its
`ensures` clauses and lemmas state the promised properties. A method of the class `License` then
updates `options`/`transients` step by step, as the PHP does, and is proved to reach exactly that
state. The store is a `map<string, string>`. An absent entry is what `get_option` reports as `false`.
Each remote answer is a `Reply` value passed in. `NoReply` stands for two results that every caller
treats alike: the empty array returned on a skipped call or a transport error, and the `null` that
`json_decode` gives for an undecodable body. The clock and `strtotime` are parameters.

The second part is in `includes/sermons.php`. The module `Sermons` covers the catalogue of the 66
Bible books: the two canonical lists, tagged with their testament and joined into `all`. It also covers
the filing of sermon books into the `Old Testament`, `New Testament` and `Other Books` groups in input
order. Both are methods with loops: the tagging loop (`TagTestament`) is proved to give every entry
the testament while keeping its name, and the filing loop (`SermonBooksByTestament`) is proved against
the specification function `InBucket`.

The module `PhpBuiltins` states the PHP string built-ins the license code relies on: truthiness,
`trim`, `ltrim`, the first field of `explode(' ', …)` and `str_replace`.

Three behaviours of the code are easy to miss, and the model keeps them:

- **Key changes.** Saving a key clears status and expiration whenever the *stored* key is non-empty
  and not `"0"`, and differs from the new, *untrimmed* value. That includes saving an empty key. It also includes
  re-saving the same key with surrounding spaces, as long as the key is not a numeric string
  (`SanitizeComparesUntrimmed`).
- **Failure marker.** The activation-failure marker is consumed only when the Theme License page is
  rendered. On other screens it stays until its lifetime runs out.
- **Expiration overwrite.** A remote expiration overwrites the local one unless it is the `1970-01-01`
  sentinel, or it is empty or `"0"`; in those cases the local date is kept.

## Model

| member | source | states |
|---|---|---|
| PhpBuiltins.TrimStart | includes/admin/edd-license.php:153 | `ltrim`: the result is a suffix, starts with a kept character, and everything dropped was in the cut set |
| PhpBuiltins.TrimEnd | includes/admin/edd-license.php:169 | the right half of `trim`: a prefix ending with a kept character, everything dropped is whitespace |
| PhpBuiltins.Trim | includes/admin/edd-license.php:169 | `trim`: the result is the input with a run of whitespace cut from each end (an infix `s[a..b]` with only whitespace outside it), no whitespace at either end, and the input comes back unchanged exactly when its ends are not whitespace |
| PhpBuiltins.BeforeFirstSpace | includes/admin/edd-license.php:280 | the first field of `explode(' ', …)`: a prefix without spaces, followed by a space or the end of the input |
| PhpBuiltins.Replace | includes/admin/edd-license.php:821 | `str_replace`: only characters of the input or the replacement appear; an empty search string changes nothing (what is replaced is stated by `ReplaceFirst` and `ReplaceAbsent`) |
| PhpBuiltins.ReplaceAbsent | includes/admin/edd-license.php:821 | a string without the search text is returned unchanged |
| PhpBuiltins.ReplaceSelf | includes/admin/edd-license.php:821 | replacing the search text by itself is the identity |
| PhpBuiltins.TrimPadded | includes/admin/edd-license.php:562 | a trimmed string with one space put in front trims back to itself |
| PhpBuiltins.ReplaceFirst | includes/admin/edd-license.php:821 | when the search text first occurs after `pre`, the left-to-right scan keeps `pre`, puts the replacement in its place and goes on replacing in the rest |
| EddLicense.KeyOption | includes/admin/edd-license.php:148-158 | the name starts with `<slug>_license_key`, and is exactly that when the suffix is empty |
| EddLicense.OptionNamesDistinct | includes/admin/edd-license.php:148-158 | `key_option()`, `key_option('status')` and `key_option('expiration')` are `<slug>_license_key`, `<slug>_license_key_status` and `<slug>_license_key_expiration`, three different entries for every slug |
| EddLicense.KeyOptionUnderscores | includes/admin/edd-license.php:152-154 | leading underscores of the suffix are dropped |
| EddLicense.LicenseKey | includes/admin/edd-license.php:167-173 | the key is `trim` of the stored entry, and an absent entry reads as the empty key |
| EddLicense.StatusReadsStore | includes/admin/edd-license.php:183-243 | the status is the stored entry, or `false` when absent; active and expired are the entry equal to `active` and `expired`; inactive is an absent, empty or `"0"` entry |
| EddLicense.StatusPredicatesPartition | includes/admin/edd-license.php:183-243 | active, inactive and expired never overlap, and on a valid status exactly one holds |
| EddLicense.ExpirationDate | includes/admin/edd-license.php:279-281 | the stored date has no space and no surrounding whitespace |
| EddLicense.ExpirationDateDropsTime | includes/admin/edd-license.php:279-281 | `date time` is cut back to `date`, and a plain date is kept |
| EddLicense.ExpirationUpdated | includes/admin/edd-license.php:274-293 | an empty input or the `1970-01-01` sentinel changes nothing; otherwise the expiration becomes the date before the first space, trimmed; no other entry changes; a newly written value is never the sentinel |
| EddLicense.ExpirationUpdatedIdempotent | includes/admin/edd-license.php:274-293 | writing the same remote expiration twice is writing it once |
| EddLicense.ExpirationDataOf | includes/admin/edd-license.php:336-351 | `expiration` is the stored entry; the timestamp is `strtotime` of an entry that is neither empty nor `"0"`, and empty otherwise; the threshold is now plus the configured days in seconds; expiring soon holds iff the status is not expired, the stored date is neither empty nor `"0"`, its timestamp is non-empty and non-zero, and it is below the threshold |
| EddLicense.ExpiringSoonExamples | includes/admin/edd-license.php:344-347 | with a stored date and a 30-day window, `ExpirationDataOf` says expiring soon for a date 10 days ahead and not for one 40 days ahead, and never for an expired license |
| EddLicense.ExpiringSoonMonotonic | includes/admin/edd-license.php:344-347 | a later clock or a wider window never turns expiring-soon off |
| EddLicense.Action | includes/admin/edd-license.php:877-921 | the remote answer is seen only with the options page on, a known action and a key that is neither empty nor `"0"`; otherwise the result is empty |
| EddLicense.CheckData | includes/admin/edd-license.php:932-958 | a set `license` or `expires` field gives its value when non-empty and "" when empty; an unset field or no key gives the whole data |
| EddLicense.CheckStatus | includes/admin/edd-license.php:968-974 | when the call is allowed and the answer has a license field, the result is that field ("" when empty); otherwise nothing; in particular `valid` and `inactive` are reported iff the answer says so |
| EddLicense.SyncedStatus | includes/admin/edd-license.php:1005-1028 | `valid` makes the status `active`; `inactive`/`site_inactive`/`disabled` delete it; `expired` sets `expired`; any other or missing value keeps it |
| EddLicense.SyncedOptions | includes/admin/edd-license.php:989-1038 | no answer or an empty answer changes nothing, nor does a disabled options page or an empty key; otherwise the status follows the transition table; the key and all other entries are untouched; a valid status range is preserved; a newly written expiration is never the sentinel |
| EddLicense.WithStatus | includes/admin/edd-license.php:1005-1028 | `update_option`/`delete_option` of the status: the status reads back as written, and every other entry, the key and the expiration included, is unchanged |
| EddLicense.SyncedExpiration | includes/admin/edd-license.php:1030-1034 | apart from the status, a sync leaves exactly the store `ExpirationUpdated` gives for an answered `expires`, and the old store otherwise |
| EddLicense.SyncValidActivates | includes/admin/edd-license.php:1007-1010 | a remote `valid` leaves the license active whatever the local status was |
| EddLicense.SyncIdempotent | includes/admin/edd-license.php:989-1038 | syncing twice against the same answer is syncing once |
| EddLicense.SanitizedOptions | includes/admin/edd-license.php:552-566 | status and expiration are deleted iff the stored key is non-empty and not `"0"`, and differs from the new value; nothing else changes |
| EddLicense.SanitizeComparesUntrimmed | includes/admin/edd-license.php:554-562 | re-saving an active, non-numeric key with a leading space clears the status, although it trims to the same key |
| EddLicense.RequestedAction | includes/admin/edd-license.php:604-624 | with theme support, a passed action is used as given; otherwise a posted Activate or Deactivate button with a good nonce gives `activate_license` or `deactivate_license`, and a bad nonce gives nothing; no passed action and no posted button (an ordinary admin page load) gives nothing; nothing happens without theme support |
| EddLicense.ActivationOf | includes/admin/edd-license.php:602-670 | the failure marker is set iff an activation got an answer that is not `valid` and the fallback check is not `valid`; a failure keeps the status; no request or no answer changes nothing; the key and other entries are untouched; a valid status range is preserved |
| EddLicense.ActivationExpiration | includes/admin/edd-license.php:660-665 | apart from the status, an activation request leaves exactly the store `ExpirationUpdated` gives for an answered `expires`, and the old store otherwise |
| EddLicense.AnsweredActivation | includes/admin/edd-license.php:630-667 | an answered activation makes the status `active` when the answer or the check says `valid` and fails otherwise; an answered deactivation deletes it on `deactivated`/`disabled`/`failed` or a check saying `inactive`; in every other case the status is kept; apart from the status the store is `ExpirationUpdated` of the old one when `expires` is set, and the old one otherwise |
| EddLicense.AnswerStatus | includes/admin/edd-license.php:633-658 | the same status table before the expiration is written; no entry but the status changes, and a request that neither activates nor deactivates leaves the store as it was |
| EddLicense.ActivateOutcome | includes/admin/edd-license.php:633-645 | an answered activation makes the license active iff the answer or the fallback check says `valid`; otherwise it fails and keeps the status |
| EddLicense.DeactivateOutcome | includes/admin/edd-license.php:647-658 | an answered deactivation deletes the status iff the answer is `deactivated`, `disabled` or `failed` or the check says `inactive`, and never fails |
| EddLicense.SelectedNotice | includes/admin/edd-license.php:726-770 | notices appear only with support and permission, on the dashboard, themes or updates screen, and only with a configured message; an active license expiring soon gets the expiring-soon notice iff its message is configured; expired gets the expired notice and inactive the inactive one, each iff its message is configured; an active license not expiring soon gets none |
| EddLicense.RenewalUrl | includes/admin/edd-license.php:815-826 | the URL is built only from the configured URL and the key |
| EddLicense.RenewalUrlSplicesKey | includes/admin/edd-license.php:821 | the first `{license_key}` of the URL is replaced by the key and the rest of the URL is scanned again, so every placeholder gets the key; with no placeholder after the first one, the rest is kept as is |
| EddLicense.RenewalUrlWithoutPlaceholder | includes/admin/edd-license.php:821 | a URL without the placeholder is used as configured |
| EddLicense.License.constructor | includes/admin/edd-license.php:148-158 | a store for one theme slug and configuration, holding the given options and transients |
| EddLicense.License.UpdateStatus | includes/admin/edd-license.php:1010 | `update_option` of the status sets it and touches nothing else |
| EddLicense.License.DeleteStatus | includes/admin/edd-license.php:1018 | `delete_option` of the status removes it and touches nothing else |
| EddLicense.License.UpdateExpiration | includes/admin/edd-license.php:274-293 | the store becomes `ExpirationUpdated` of the old one; the status range is kept |
| EddLicense.License.Sync | includes/admin/edd-license.php:989-1038 | the store becomes `SyncedOptions` of the old one; the status range is kept |
| EddLicense.License.SyncStatus | includes/admin/edd-license.php:1005-1028 | the status entry becomes `SyncedStatus` of the old status and the remote field, nothing else changes |
| EddLicense.License.Sanitize | includes/admin/edd-license.php:552-566 | returns the trimmed value; the store becomes `SanitizedOptions` of the old one |
| EddLicense.License.SaveKey | includes/admin/edd-license.php:532-566 | saving sanitises first, stores the trimmed key, and clears status and expiration when a stored key is replaced |
| EddLicense.License.Activate | includes/admin/edd-license.php:602-670 | the store becomes `ActivationOf` of the old one, and the `fail` transient is set exactly on a failed activation |
| EddLicense.License.HandleAnswer | includes/admin/edd-license.php:630-667 | the answered branch: store and transients as `AnsweredActivation` states |
| EddLicense.License.SetAnswerStatus | includes/admin/edd-license.php:633-658 | the status update or failure marker of an answered request, as `AnswerStatus` states |
| EddLicense.License.ActivationFailureNotice | includes/admin/edd-license.php:679-713 | on the license page, the notice is shown iff the marker says `fail` and a message is configured, and a set marker is deleted |
| EddLicense.License.AutoSync | includes/admin/edd-license.php:1050-1085 | syncs iff supported, in the admin, with the options page, on a sync screen, and either on the license page or without the daily marker; each sync sets the marker; otherwise nothing changes |
| EddLicense.FailureReportedOnce | includes/admin/edd-license.php:642-709 | a rejected activation is reported on the next license-page render and not on the one after |
| EddLicense.RenderLicensePageTwice | includes/admin/edd-license.php:679-713 | with the marker set to `fail` and a message configured, the first license-page render shows the notice and the second does not |
| EddLicense.DailySyncGate | includes/admin/edd-license.php:1069-1081 | a second dashboard visit does not sync again, but the license page still does |
| Sermons.TagTestament | includes/sermons.php:369-375 | every entry gets the testament, keeping its name and the list length |
| Sermons.BibleBookCatalogue | includes/sermons.php:157-383 | 39 Old Testament books from Genesis to Malachi tagged `old`, 27 New Testament books from Matthew to Revelation tagged `new`, and `all` is the two joined (66 books, `old` exactly at the first 39 positions) |
| Sermons.BucketOfTestament | includes/sermons.php:417-425 | a book tagged `old` goes to the Old Testament group, one tagged `new` to the New Testament group, and any other or missing tag to Other Books |
| Sermons.InBucket | includes/sermons.php:415-427 | a group holds only books of its testament, never more than the input |
| Sermons.BucketPositions | includes/sermons.php:415-427 | one in-range position per grouped book, strictly increasing |
| Sermons.BucketPositionsSelect | includes/sermons.php:420-424 | the group lists exactly the input's books at those increasing positions, so input order is kept |
| Sermons.BucketPositionsCover | includes/sermons.php:417-425 | every input book of the group's testament sits at one of its positions |
| Sermons.InBucketAppend | includes/sermons.php:420-424 | grouping a concatenation groups each part in turn |
| Sermons.PartitionSizes | includes/sermons.php:415-427 | the group sizes add up to the input length |
| Sermons.PartitionMultiset | includes/sermons.php:415-427 | the three groups together hold exactly the input books |
| Sermons.CatalogueFilesByTestament | includes/sermons.php:370-378 | grouping a tagged catalogue gives back its two testaments and no other books |
| Sermons.AllInBucket | includes/sermons.php:417-425 | a list entirely of one testament is grouped whole |
| Sermons.NoneInBucket | includes/sermons.php:417-425 | a list without books of a testament leaves that group empty |
| Sermons.SermonBooksByTestament | includes/sermons.php:393-431 | the three labelled groups always exist and hold the input's books of `old`, of `new` and of any other or missing tag, in input order, with sizes adding up to the input length |
| Sermons.CatalogueByTestament | includes/sermons.php:378-427 | grouping the catalogue's `all` list yields 39 old books, 27 new books and no others |

## Left out

- The HTTP request and JSON decoding (`wp_remote_get`, `json_decode`, URL encoding, includes/admin/edd-license.php:895-910) are I/O. Each answer is a `Reply` parameter, and `NoReply` covers a skipped call, a transport error and an undecodable body alike.
- A decoded answer whose `license` or `expires` is not a string (a number, `true`, an array) is not represented. Comparisons with the constant answers (`valid`, `active`, `expired`, …) are string equality, which agrees with PHP's loose `==` because those constants are not numeric strings.
- EddLicense.SanitizedOptions: compares the stored key and the new value as strings. PHP's `!=` compares two numeric strings as numbers, so a numeric key such as `12345` re-saved as ` 12345` keeps its status in PHP and loses it here; `SanitizeComparesUntrimmed` is stated only for keys that are never numeric.
- PhpBuiltins.Replace: its own contract bounds only the characters of the result; what `str_replace` puts where is stated by `ReplaceFirst` and `ReplaceAbsent`, which together determine the result for every input.
- `strtotime`, `date_i18n` and `time()` are not computed. `strtotime` and the current time are parameters, and `ctfw_edd_license_expiration_formatted` (presentation) is not part of this model.
- Transient lifetimes (15 seconds for the failure marker, one day for the sync marker) are not modelled. A transient is present or absent; expiry by time is what the caller's next store would show.
- HTML output is not modelled: the Theme License page, its menu entry, the notice markup and the `printf` templates. `SelectedNotice` gives only which notice is shown.
- Host-platform calls become inputs: `current_theme_supports`, `current_user_can`, `is_admin`, `check_admin_referer`, `get_current_screen` and the configuration from `ctfw_edd_license_config`. Filters are the identity.
- `CTFW_EDD_SL_Theme_Updater` and `ctfw_edd_license_updater` (includes/admin/edd-license.php:112-133) are not part of this model.
- `ctfw_edd_license_process_renew_button` (includes/admin/edd-license.php:833-861) only redirects to the renewal URL, so only `RenewalUrl` is modelled.
- `ctfw_edd_license_activate_after_save` (includes/admin/edd-license.php:576-593) is commented out in the source.
- `ctfw_edd_license_expiring_soon` and `ctfw_edd_license_expiration` are one-line reads of `ExpirationDataOf` and the store, so they have no members of their own.
- `ctfw_sermon_data` and `ctfw_sermon_date_archive` in includes/sermons.php are not part of this model: they depend on the filesystem, uploads and rewrite rules.
- `ctfw_content_type_archives` is not part of this model. Its `items` list is the input of `SermonBooksByTestament`, with each book's testament as an optional tag.
- Sermons.SermonBooksByTestament: a group that receives no books has `[]` here, where PHP leaves its `books` entry unset.
- Translation of book names and group labels is the identity.
- The Old and New Testament filter names are swapped (includes/sermons.php:366-367), which makes no difference with identity filters.
- includes/classes/widget-people.php and includes/admin/activation.php are not part of this model: they are field definitions, hook registration and notice output.
