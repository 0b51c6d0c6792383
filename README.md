# Play policy checker, modelled in Dafny

This project models the core of a web service that checks an Android APK against Google Play
policies. The server has four parts:

- A rule engine (`analyzeApk`). It takes a decoded `AndroidManifest.xml` and gives a list of
  policy violations from six checks. The order is SDK Version, Privacy Policy, Battery Usage,
  ANR Risk, Security, Billing Compliance. Each check contributes at most one violation.
- An in-memory scan store (`MemStorage`). It issues ids from a counter, stamps every record with
  the time it was created, and lists records newest first.
- The shared record shapes: severity, status, violation, scan, and the insert shape.
- The three HTTP routes: upload a file, list the scans, get one scan.

The client side contributes some small pure helpers and state machines:

- from the results page: severity impact, remediation steps and code examples, grouping by
  severity, summary counts, permission badges, and the page arithmetic of the PDF report;
- the registration form's password rule and the order of its submit checks;
- the FAQ accordion, which keeps at most one panel open.

Modules, one per source file, plus three helper modules:

| file | module | source |
|---|---|---|
| `wrappers.dfy` | `Wrappers` | `Option` and `Result` |
| `seqs.dfy` | `Seqs` | order-preserving `Filter` and subsequences |
| `text.dfy` | `Text` | substring search, lower-casing, `join`, decimal rendering |
| `schema.dfy` | `Schema` | `shared/schema.ts` |
| `storage.dfy` | `Storage` | `server/storage.ts` |
| `routes.dfy` | `Routes` | `server/routes.ts` (and the error handler of `server/index.ts`) |
| `scan_results.dfy` | `ScanResults` | `client/src/components/scan-results.tsx` |
| `register.dfy` | `Register` | `client/src/components/register.tsx` |
| `faq.dfy` | `Faq` | `client/src/components/faq.tsx` |

Each part is modelled in the form its source takes.

- `analyzeApk` builds a local list step by step, so it is a method (`Routes.AnalyzeApk`). It calls
  one small method per check, and each of those appends at most one violation.
- The method is proved equal to a pure description, `Routes.Violations`, which concatenates the
  six rule outcomes. The properties of the engine are lemmas about that function.
- `MemStorage`, the register form and the FAQ section are classes. Their fields change in place.
- The severity grouping, the PDF layout and the footer loop are methods with loops. Each is proved
  against a specification function.

Four behaviours of the code are easy to misread. The model follows the code in each:

- The Battery rule counts a service whose `exported` is absent or false. It also counts a service
  whose `permission` is absent or `""`. This follows JavaScript truthiness.
- The ANR rule drops a service with an absent or empty name. Such a service is neither counted
  nor listed.
- When `targetSdkVersion` is missing inside a present `uses-sdk`, the SDK version is also 0.
- A non-`.apk` upload is refused by the upload filter's error. That error goes to the generic
  error handler, so the answer is 500 with "Only APK files are allowed", not 400.

## Model

| member | source | states |
|---|---|---|
| `Schema.ParseSeverity` | shared/schema.ts:8 | a severity name is accepted exactly when it is "low", "medium" or "high", and the accepted value prints back as the same text |
| `Schema.ParseSeverityName` | shared/schema.ts:8 | every severity's name parses back to that severity |
| `Schema.ParseStatus` | shared/schema.ts:20 | a status is accepted exactly when it is "pending", "completed" or "failed", and it prints back as the same text |
| `Schema.ParseStatusName` | shared/schema.ts:20 | every status's name parses back to that status |
| `Schema.FromInsert` | shared/schema.ts:25-28 | a scan built from an insert record carries the given id and stamp, and dropping those two gives back exactly the insert record |
| `Schema.FromInsertToInsert` | shared/schema.ts:14-28 | every scan is its insert part completed with its own id and stamp |
| `Storage.NewestFirstDistinct` | server/storage.ts:35-37 | a listing in newest-first order holds no record twice |
| `Storage.InsertNewestFirst` | server/storage.ts:35-37 | placing a newer record into a newest-first listing keeps it newest first, adds exactly that record, and grows the listing by one |
| `Storage.MemStorage.constructor` | server/storage.ts:13-16 | a new store is empty, its counter is 1, and its invariant holds |
| `Storage.MemStorage.CreateScan` | server/storage.ts:18-28 | the new scan is the insert fields plus the old counter as id and `now` as stamp; the id was not in use; the counter goes up by one; only that one key is added to the map |
| `Storage.MemStorage.GetScan` | server/storage.ts:30-32 | a lookup finds an id exactly when it was issued, and then gives the record stored under it; the store is not changed |
| `Storage.MemStorage.GetAllScans` | server/storage.ts:34-38 | the listing holds every stored record, no other record, and none twice; it is ordered by stamp descending, with ties in insertion order; the store is not changed |
| `Storage.CreateTwice` | server/storage.ts:15-26 | two creations in a row get consecutive ids, and both records are then stored |
| `Routes.SdkVersion` | server/routes.ts:87 | the SDK version is the manifest's target version when there is one, and 0 when `uses-sdk` or its target is missing |
| `Routes.PermissionNames` | server/routes.ts:88 | the requested permission names, in manifest order; none when `uses-permission` is missing |
| `Routes.ServicesOf` | server/routes.ts:127 | the application's services; none when the application or its services are missing |
| `Routes.MetaDataOf` | server/routes.ts:112 | the application's metadata entries; none when the application or its metadata are missing |
| `Routes.IsPrivacySensitive` | server/routes.ts:102-109 | a permission is privacy-sensitive when it contains one of READ_PHONE_STATE, ACCESS_WIFI_STATE, RECORD_AUDIO, CAMERA, READ_CONTACTS or ACCESS_FINE_LOCATION |
| `Routes.HasPrivacyPolicy` | server/routes.ts:111-113 | `some` over the metadata: some entry declares a privacy policy |
| `Routes.HasPrivacyPolicyIsSome` | server/routes.ts:111-113 | the `some` holds exactly when filtering the metadata by the per-entry test leaves at least one entry |
| `Routes.DeclaresPrivacyPolicy` | server/routes.ts:112-114 | a metadata entry declares a privacy policy when it has a name whose lower-cased form contains "privacy_policy" |
| `Routes.IsBackgroundService` | server/routes.ts:127-129 | a service counts for the battery rule when `exported` is absent or false and `permission` is absent or empty |
| `Routes.IsRiskyService` | server/routes.ts:141-144 | a service is risky when it has a non-empty name whose lower-cased form contains neither "worker" nor "job" |
| `Routes.KelvinSignLikeK` | server/routes.ts:141-144 | a service name with the Kelvin sign (U+212A) where a K would be is judged exactly as the name with the K, so "WOR\u212AER" counts as a worker |
| `Routes.UsesPlayBilling` | server/routes.ts:167-169 | `some` over the metadata: some entry declares the Play Billing client |
| `Routes.UsesPlayBillingIsSome` | server/routes.ts:167-169 | the `some` holds exactly when filtering the metadata by the per-entry test leaves at least one entry |
| `Routes.DeclaresPlayBilling` | server/routes.ts:167-169 | a metadata entry declares the Play Billing client when its name contains "com.google.android.play.billingclient", case-sensitively |
| `Routes.PrivacyPermissions` | server/routes.ts:102-109 | the privacy-sensitive permissions are exactly the inputs that contain one of the six sensitive names, kept in input order, each as many times as it is requested |
| `Routes.SdkRule` | server/routes.ts:92-99 | the SDK rule fires exactly when the version is below 31; its violation is "SDK Version", high, and its description contains the version |
| `Routes.PrivacyRule` | server/routes.ts:111-124 | the privacy rule fires exactly when some permission is privacy-sensitive and no metadata name mentions a privacy policy; its violation is high, and its description lists the matched permissions joined by ", " |
| `Routes.BatteryRule` | server/routes.ts:127-138 | the battery rule fires exactly when more than two services are unexported and unprotected; its violation is medium, and its description contains that count |
| `Routes.AnrRule` | server/routes.ts:141-153 | the ANR rule fires exactly when some service has a non-empty name with neither "worker" nor "job" in its lower-cased form; its description gives the number of such services and ends with their names, in order, joined by ", " |
| `Routes.AnrDescriptionListing` | server/routes.ts:149 | the ANR description contains, and ends with, the risky services' names in order joined by ", " |
| `Routes.AnrDescriptionFacts` | server/routes.ts:149 | the ANR description contains the count of risky services and every risky service's name |
| `Routes.IsDebuggable` | server/routes.ts:156 | `application?.debuggable === true`: there is an application and its flag is exactly true |
| `Routes.DebuggableOnlyWhenTrue` | server/routes.ts:156 | no application, an absent flag and `false` are not debuggable; `true` is |
| `Routes.SecurityRule` | server/routes.ts:156-163 | the security rule fires exactly when the application is marked debuggable, with a high "Security" violation |
| `Routes.BillingRule` | server/routes.ts:166-179 | the billing rule fires exactly when the exact billing permission is requested and no metadata name mentions the Play Billing client; its violation is high |
| `Routes.ListedInDescription` | server/routes.ts:119 | a description built around a ", "-joined list contains the whole list and each item of it |
| `Routes.ListedAtEnd` | server/routes.ts:148 | a description that ends with a ", "-joined list contains each item of it |
| `Routes.Listed` | server/routes.ts:89-179 | one check contributes nothing or exactly its one violation |
| `Routes.Violations` | server/routes.ts:89-179 | the engine's output as a value: the six rule outcomes in check order, which is never more than six violations |
| `Routes.CheckSdk` | server/routes.ts:92-99 | the SDK step appends exactly the SDK rule's outcome to the violations found so far |
| `Routes.CheckPrivacy` | server/routes.ts:111-124 | the privacy step appends exactly the privacy rule's outcome |
| `Routes.CheckBattery` | server/routes.ts:127-138 | the battery step appends exactly the battery rule's outcome |
| `Routes.CheckAnr` | server/routes.ts:141-153 | the ANR step appends exactly the ANR rule's outcome |
| `Routes.CheckSecurity` | server/routes.ts:156-163 | the security step appends exactly the security rule's outcome |
| `Routes.CheckBilling` | server/routes.ts:166-179 | the billing step appends exactly the billing rule's outcome |
| `Routes.AnalyzeApk` | server/routes.ts:77-187 | the analysis keeps the package name and the permission names unchanged; the SDK version defaults to 0; missing permissions give `[]`; the violations are the six rule outcomes in check order |
| `Routes.AppendInCheckOrder` | server/routes.ts:89-179 | appending the outcome of the next check keeps the list in check order |
| `Routes.OutcomesInCheckOrder` | server/routes.ts:89-179 | any six outcomes listed in SDK, Privacy, Battery, ANR, Security, Billing order are ordered by those categories |
| `Routes.ViolationsInCheckOrder` | server/routes.ts:89-179 | whichever checks fire, the violations come in the fixed order of the six categories |
| `Routes.OnePerCategory` | server/routes.ts:89-179 | an analysis has at most six violations, and no two of them share a category |
| `Routes.ViolationsMembers` | server/routes.ts:89-179 | a violation is in the output exactly when one of the six rules produced it |
| `Routes.ReportsAppend` | server/routes.ts:89-179 | a category is reported by a joined list exactly when one of the two parts reports it |
| `Routes.ReportsOutcomes` | server/routes.ts:89-179 | a category is reported by the six outcomes exactly when one of the outcomes carries it |
| `Routes.SdkReported` | server/routes.ts:92-99 | "SDK Version" is reported exactly when the SDK version is below 31 |
| `Routes.PrivacyReported` | server/routes.ts:102-124 | "Privacy Policy" is reported exactly when some permission is sensitive and no privacy-policy metadata is present |
| `Routes.BatteryReported` | server/routes.ts:127-138 | "Battery Usage" is reported exactly when more than two background services are declared |
| `Routes.AnrReported` | server/routes.ts:141-153 | "ANR Risk" is reported exactly when some service is risky |
| `Routes.SecurityReported` | server/routes.ts:156-163 | "Security" is reported exactly when the application is debuggable |
| `Routes.BillingReported` | server/routes.ts:166-179 | "Billing Compliance" is reported exactly when billing is requested without the Play Billing client |
| `Routes.ViolationSeverities` | server/routes.ts:89-179 | Battery and ANR violations are medium, and every other violation is high |
| `Routes.BareManifest` | server/routes.ts:86-99 | a manifest with only a package name gets exactly one violation, the SDK violation for version 0 |
| `Text.EndsWith` | server/routes.ts:69 | `endsWith`: the last characters of the text are the suffix |
| `Text.EndsWithIsConcat` | server/routes.ts:69 | a text ends with a suffix exactly when it is some stem followed by that suffix |
| `Routes.IsApkFileName` | server/routes.ts:68-74 | the upload filter accepts a file when its original name ends in ".apk" |
| `Routes.ApkFileNames` | server/routes.ts:68-74 | a name is accepted exactly when it is some stem followed by ".apk" |
| `Routes.UpperCaseApkRefused` | server/routes.ts:68 | the suffix test is case-sensitive: any name ending in ".APK" is refused |
| `Routes.FailureMessage` | server/routes.ts:209-212 | a thrown `Error` is answered with its own message, anything else with "Failed to process APK" |
| `Routes.ScanOf` | server/routes.ts:198-205 | the stored record carries the file's original name, status "completed" and the analysis fields |
| `Routes.PostScan` | server/routes.ts:190-213 | no file gives 400; a refused file name gives 500 from the error handler; a decoder failure gives 500 with its message; otherwise the analysed scan is stored under the next id and returned with 200; only the success case changes the store |
| `Routes.ListScans` | server/routes.ts:215-218 | the list route returns every stored scan, none twice and nothing else, newest first |
| `Routes.GetScanById` | server/routes.ts:220-229 | an issued id returns its stored scan; an unknown or unparsable id gives 404 "Scan not found" |
| `ScanResults.ViolationImpact` | client/src/components/scan-results.tsx:22-33 | "high", "medium" and "low" map to their three fixed impact texts; every other severity maps to "" |
| `ScanResults.ImpactOfEverySeverity` | client/src/components/scan-results.tsx:22-33 | every severity of the schema has an impact text, and different severities have different texts |
| `ScanResults.RemediationSteps` | client/src/components/scan-results.tsx:35-68 | the four guided categories get exactly their four steps; every other category gets none |
| `ScanResults.CodeExample` | client/src/components/scan-results.tsx:70-107 | a code example is non-empty exactly for the four guided categories |
| `ScanResults.StepsIffExample` | client/src/components/scan-results.tsx:35-107 | a category has remediation steps exactly when it has a code example |
| `ScanResults.EngineCategoriesGuidance` | client/src/components/scan-results.tsx:35-107 | the SDK, Privacy and Battery categories have guidance; ANR Risk, Security and Billing Compliance get no steps and no example |
| `ScanResults.BucketMembers` | client/src/components/scan-results.tsx:198-204 | a severity bucket holds exactly the violations of that severity, in input order |
| `ScanResults.BucketSnoc` | client/src/components/scan-results.tsx:199-203 | one more violation extends its own severity's bucket and no other |
| `ScanResults.GroupOfStep` | client/src/components/scan-results.tsx:199-203 | pushing the next violation onto its severity's list, creating the list when missing, keeps every severity's group exact |
| `ScanResults.GroupBySeverity` | client/src/components/scan-results.tsx:198-204 | the grouping has a key exactly for each severity that occurs, and under it that severity's violations in input order |
| `ScanResults.BucketSizes` | client/src/components/scan-results.tsx:198-204 | the three bucket sizes add up to the number of violations |
| `ScanResults.HighRiskCount` | client/src/components/scan-results.tsx:265 | the high-risk count: the size of the high group, 0 when it is missing |
| `ScanResults.OtherIssuesCount` | client/src/components/scan-results.tsx:278 | the other-issues count: the sizes of the medium and low groups, each 0 when missing |
| `ScanResults.SummaryCounts` | client/src/components/scan-results.tsx:265-278 | the high-risk count is the number of high violations and is 0 exactly when there are none; the other-issues count is the medium plus low violations; the two counts add up to the total |
| `Text.SegmentBeforeUnique` | client/src/components/scan-results.tsx:417 | at most one text is a separator-free prefix of the rest ending at the next separator or at the end, so the split segment is determined |
| `Text.SplitSecond` | client/src/components/scan-results.tsx:417 | `split(sep)[1]` of a text that contains `sep` holds no `sep` |
| `Text.SplitSecondIsSegment` | client/src/components/scan-results.tsx:417 | `split(sep)[1]` is the whole segment after the first `sep`: up to the second `sep` or the end, with no `sep` starting inside it |
| `Text.NoOccurrenceInHead` | client/src/components/scan-results.tsx:417 | no `sep` starts inside a `head` none of whose characters is the first character of `sep` |
| `Text.SplitSecondAfterHead` | client/src/components/scan-results.tsx:417 | a text `head + sep + tail`, where no `sep` starts inside `head` and `tail` holds none, splits to `tail` |
| `ScanResults.PermissionLabel` | client/src/components/scan-results.tsx:417 | a permission without ".permission." is shown whole; otherwise the badge holds no ".permission." |
| `ScanResults.PermissionLabelIsSplitSegment` | client/src/components/scan-results.tsx:417 | at the first ".permission." the badge is the text after it up to the next one or to the end |
| `ScanResults.PermissionLabelPosition` | client/src/components/scan-results.tsx:417 | when the separator occurs, its first occurrence exists, is directly followed by the badge, and the badge is the whole split segment after it |
| `ScanResults.AndroidPermissionLabel` | client/src/components/scan-results.tsx:417 | an `android.permission.NAME` permission, where NAME holds no ".permission.", is shown as NAME |
| `ScanResults.IsHighlighted` | client/src/components/scan-results.tsx:408-412 | a badge is red when the lower-cased permission contains "dangerous", or the permission contains "SMS", "LOCATION", "CAMERA" or "CONTACTS" |
| `ScanResults.PrivacyPermissionsHighlighted` | client/src/components/scan-results.tsx:408-412 | the camera, contacts and fine-location permissions are drawn red |
| `ScanResults.PlacementOf` | client/src/components/scan-results.tsx:136-161 | every entry is placed on page 1 or later, at an offset between 20 and 270 |
| `ScanResults.PageCount` | client/src/components/scan-results.tsx:136-161 | a report has at least one page, and its last page is the page of its last entry |
| `ScanResults.PlacementStep` | client/src/components/scan-results.tsx:149-160 | the next entry is 40 lower on the same page, or, if the offset has passed 270, at offset 20 on the next page |
| `ScanResults.LayoutReport` | client/src/components/scan-results.tsx:136-161 | the loop places each entry where the layout function says and counts the pages |
| `ScanResults.EntryBounds` | client/src/components/scan-results.tsx:149-160 | entries start between offsets 20 and 260; on page 1 an entry's text ends above the footer; the seventh entry of a later page reaches offset 290 |
| `ScanResults.PlacementsInOrder` | client/src/components/scan-results.tsx:136-161 | a later entry is never on an earlier page, and on the same page it is lower |
| `ScanResults.FooterLabel` | client/src/components/scan-results.tsx:192 | the footer text of page i of N: "Page i of N" in decimal |
| `ScanResults.FooterLabels` | client/src/components/scan-results.tsx:186-193 | the footer loop writes "Page i of N" for each page i from 1 to N |
| `ScanResults.FooterLabelsDistinct` | client/src/components/scan-results.tsx:192 | two pages of one report never get the same footer |
| `Register.Utf16Length` | client/src/components/register.tsx:18 | the length `.{8,}` counts: UTF-16 code units, between the number of characters and twice that |
| `Register.Utf16LengthSnoc` | client/src/components/register.tsx:18 | one more character adds one code unit, or two for a character above U+FFFF |
| `Register.EmojiCountTwice` | client/src/components/register.tsx:18 | "Aa1!" followed by two emoji is six characters but eight code units |
| `Register.ValidatePassword` | client/src/components/register.tsx:16-20 | the regex read construct by construct: each lookahead finds its class before the first line terminator, and `.{8,}$` needs eight or more code units and no terminator |
| `Register.LookaheadWithoutTerminators` | client/src/components/register.tsx:17-18 | on a line without terminators, a lookahead finds a character class exactly when the password contains one |
| `Register.ValidatePasswordIsStrong` | client/src/components/register.tsx:16-20 | the regex accepts exactly the passwords of 8 or more UTF-16 code units, without line terminators, with a lower-case letter, an upper-case letter, a digit and a listed special character |
| `Register.LineBreakRefused` | client/src/components/register.tsx:18 | a password with a line feed is refused, whatever it contains otherwise |
| `Register.RegisterForm.constructor` | client/src/components/register.tsx:12-14 | the form starts with both fields and the error empty |
| `Register.RegisterForm.SetPassword` | client/src/components/register.tsx:92 | typing a password changes that field only |
| `Register.RegisterForm.SetConfirmPassword` | client/src/components/register.tsx:117 | typing the confirmation changes that field only |
| `Register.RegisterForm.HandleSubmit` | client/src/components/register.tsx:22-38 | a weak password sets the rule message and stops before the match check; a strong password that differs from its confirmation sets "Passwords do not match."; otherwise the error is cleared; the error is non-empty exactly when a check failed |
| `Faq.Toggled` | client/src/components/faq.tsx:15-17 | toggling the open item closes it; toggling any other item makes it the only open one |
| `Faq.ToggleTwice` | client/src/components/faq.tsx:15-17 | toggling the same item twice closes everything, unless it was the open one, in which case it is reopened |
| `Faq.Panels` | client/src/components/faq.tsx:21-57 | there is one panel per item, with its question; it is expanded exactly when its index is the open index; only an expanded panel shows its answer |
| `Faq.AtMostOneShown` | client/src/components/faq.tsx:55-57 | at most one answer is shown, the open item's |
| `Faq.ClickExpands` | client/src/components/faq.tsx:15-32 | after a click, exactly the clicked item is expanded, unless it was already open, in which case none is |
| `Faq.FaqSection.constructor` | client/src/components/faq.tsx:13 | no item is open at first |
| `Faq.FaqSection.ToggleAccordion` | client/src/components/faq.tsx:15-17 | the open index becomes the toggled value: closed when the open item is clicked, the clicked item otherwise |
| `Seqs.Filter` | server/routes.ts:102-109 | filtering keeps exactly the elements that pass, and never grows the sequence |
| `Seqs.FilterCounts` | server/routes.ts:102-109 | filtering keeps every copy of a passing element and no copy of a failing one, so duplicates survive |
| `Seqs.FilterIsSubsequence` | server/routes.ts:102-109 | filtering keeps the input order |
| `Seqs.FilterAppend` | client/src/components/scan-results.tsx:198-204 | filtering a concatenation is the concatenation of the filtered parts |
| `Seqs.FilterSplit` | server/routes.ts:102-109 | a general fact about `filter`: under two complementary tests the two filtered lengths add up to the input length |
| `Text.ToLower` | server/routes.ts:113 | `toLowerCase`: the lower-cased text is at least as long as the input and at most twice as long |
| `Text.ToLowerAppend` | server/routes.ts:113 | lower-casing works character by character, so it distributes over concatenation |
| `Text.KelvinSignLowersLikeK` | server/routes.ts:143 | the Kelvin sign lower-cases to "k" as K does, wherever it stands in a text |
| `Text.Contains` | server/routes.ts:103-108 | `includes`: the text occurs at some position that fits |
| `Text.ContainsBounds` | server/routes.ts:103-108 | every text includes the empty text, and includes only texts no longer than itself |
| `Text.IndexOf` | client/src/components/scan-results.tsx:417 | the search finds a substring exactly when it occurs, at the first place where it occurs |
| `Text.NatToString` | server/routes.ts:94 | a number renders as a non-empty string of decimal digits that ends in its last digit |
| `Text.NatToStringInjective` | server/routes.ts:94 | different counts render as different texts |
| `Text.IntToString` | server/routes.ts:94 | `${sdkVersion}`: a non-empty text that starts with a minus sign exactly when the number is negative, and is decimal digits after it |
| `Text.IntToStringInjective` | server/routes.ts:94 | different versions, negative ones included, render as different texts |
| `Text.JoinEnds` | server/routes.ts:119 | `join(", ")` (the function `Text.Join`) of no parts is empty; otherwise it starts with the first part and ends with the last |
| `Text.JoinContainsPart` | server/routes.ts:119 | a joined list contains each of its parts |

In the Battery row, a "background service" is one whose `exported` is absent or false and whose
`permission` is absent or empty.

## Left out

- APK decoding (`apkReader.open`, `readManifest`) is a foreign library. The decoded manifest is an
  input of `Routes.PostScan`, or the value the decoder throws.
- Multer's temporary file, its 1 GB size limit, and `fs.unlink` are left out. A failure of
  `fs.unlink` after the store has been updated would also answer 500. The model does not have that
  case.
- Express itself is left out: request parsing, JSON serialisation, and headers. A response is a
  status and a body value.
- `parseInt` of the route parameter is an `Option<int>` input to `Routes.GetScanById`. `None` stands
  for `NaN`.
- Wall-clock time is an abstract natural-number `Timestamp` passed in by the caller. Date
  formatting is left out.
- The server bootstrap, static serving and request logging in `server/index.ts` are left out. Only
  its error handler's answer to a refused upload is modelled, inside `Routes.PostScan`.
- All React rendering, animation, toasts and routing are left out, as are the report viewer and
  the upload drop zone. The drop zone's progress is a floating-point ratio.
- The PDF drawing calls and the watermark are left out. The model covers only the offset and page
  arithmetic and the footer texts.
- Strings are sequences of Unicode scalar values, not UTF-16 code units. Only the password
  length needs code units, and `Register.Utf16Length` counts them there. Every other use only
  searches for ASCII words, and a surrogate pair never matches an ASCII character.
- `Text.ToLower` maps `A`–`Z`, the Kelvin sign (to `k`) and the capital I with dot above (to `i`
  and a combining dot), as JavaScript does. It leaves every other character as it is. These are
  the only characters whose lower case contains ASCII letters. The rules search only for ASCII
  words, so their outcomes are the same as with full Unicode lower-casing.
- A `uses-permission` entry is modelled with a present name. The source reads `name` without a
  check.
- `Routes.AnalyzeApk` is split into one method per check (`CheckSdk` … `CheckBilling`). The source
  writes the six blocks inline. The order and the effect on the list are the same.
- `Register.ValidatePassword` is the regex read construct by construct. The lookaheads are
  searches that stop at the first line terminator, and `.{8,}$` needs eight code units and no
  terminator at all.
  Regex backtracking in general is not modelled.
- Console logging is left out: the `console.error` in the upload route's catch
  (server/routes.ts:210) and the `console.log` after a successful submit
  (client/src/components/register.tsx:39).
- There is no per-rule fault isolation, because the source has none. Any throw inside
  `analyzeApk` reaches the single catch of the upload route.
