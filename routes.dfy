/**
 * The policy rule engine (`analyzeApk`) over a decoded manifest, the upload
 * file-name filter, and the outcomes of the three scan routes.
 */
module Routes {
  import opened Wrappers
  import opened Seqs
  import opened Text
  import opened Schema
  import opened Storage

  // ---------------------------------------------------------------------------
  // The decoded manifest. Every field the decoder may leave out is an Option.
  // ---------------------------------------------------------------------------

  datatype UsesSdk = UsesSdk(targetSdkVersion: Option<int>, minSdkVersion: Option<int>)
  datatype UsesPermission = UsesPermission(name: string)
  datatype Service = Service(exported: Option<bool>, permission: Option<string>, name: Option<string>)
  datatype IntentData = IntentData(scheme: Option<string>, host: Option<string>)
  datatype IntentFilter = IntentFilter(
    actions: Option<seq<string>>, categories: Option<seq<string>>, data: Option<seq<IntentData>>)
  datatype Activity = Activity(
    name: Option<string>, exported: Option<bool>, intentFilters: Option<seq<IntentFilter>>)
  datatype UsesLibrary = UsesLibrary(name: string, required: Option<bool>)
  datatype Provider = Provider(
    exported: Option<bool>, grantUriPermissions: Option<bool>, permission: Option<string>)
  datatype Receiver = Receiver(name: Option<string>, exported: Option<bool>, permission: Option<string>)
  datatype MetaData = MetaData(name: Option<string>, value: Option<string>)
  datatype Application = Application(
    hasCode: Option<bool>,
    debuggable: Option<bool>,
    allowBackup: Option<bool>,
    services: Option<seq<Service>>,
    activities: Option<seq<Activity>>,
    usesLibrary: Option<seq<UsesLibrary>>,
    providers: Option<seq<Provider>>,
    receivers: Option<seq<Receiver>>,
    metaData: Option<seq<MetaData>>)
  datatype UsesFeature = UsesFeature(name: string, required: Option<bool>)
  datatype Manifest = Manifest(
    package: string,
    usesSdk: Option<UsesSdk>,
    usesPermissions: Option<seq<UsesPermission>>,
    application: Option<Application>,
    usesFeature: Option<seq<UsesFeature>>)

  /** What `analyzeApk` returns. */
  datatype Analysis = Analysis(
    packageName: string,
    sdkVersion: int,
    permissions: seq<string>,
    policyViolations: seq<PolicyViolation>)

  // ---------------------------------------------------------------------------
  // Defaults for missing fields.
  // ---------------------------------------------------------------------------

  /** `manifest.usesSdk?.targetSdkVersion || 0`: an absent element or attribute reads as 0. */
  function SdkVersion(manifest: Manifest): (v: int)
    ensures manifest.usesSdk.Some? && manifest.usesSdk.value.targetSdkVersion.Some? ==>
              v == manifest.usesSdk.value.targetSdkVersion.value
    ensures manifest.usesSdk.None? || manifest.usesSdk.value.targetSdkVersion.None? ==> v == 0
  {
    if manifest.usesSdk.Some? && manifest.usesSdk.value.targetSdkVersion.Some?
    then manifest.usesSdk.value.targetSdkVersion.value
    else 0
  }

  /** `manifest.usesPermissions?.map(p => p.name) || []`. */
  function PermissionNames(manifest: Manifest): seq<string> {
    match manifest.usesPermissions
    case None => []
    case Some(ps) => seq(|ps|, i requires 0 <= i < |ps| => ps[i].name)
  }

  /** `manifest.application?.services`, with absence read as no services. */
  function ServicesOf(manifest: Manifest): seq<Service> {
    if manifest.application.Some? && manifest.application.value.services.Some?
    then manifest.application.value.services.value
    else []
  }

  /** `manifest.application?.metaData`, with absence read as no entries. */
  function MetaDataOf(manifest: Manifest): seq<MetaData> {
    if manifest.application.Some? && manifest.application.value.metaData.Some?
    then manifest.application.value.metaData.value
    else []
  }

  // ---------------------------------------------------------------------------
  // Categories, in the order the checks run.
  // ---------------------------------------------------------------------------

  const SdkCategory := "SDK Version"
  const PrivacyCategory := "Privacy Policy"
  const BatteryCategory := "Battery Usage"
  const AnrCategory := "ANR Risk"
  const SecurityCategory := "Security"
  const BillingCategory := "Billing Compliance"

  const Categories: seq<string> :=
    [SdkCategory, PrivacyCategory, BatteryCategory, AnrCategory, SecurityCategory, BillingCategory]

  /** The position of a category in the check order; 6 for any other string. */
  function Rank(category: string): nat {
    if category == SdkCategory then 0
    else if category == PrivacyCategory then 1
    else if category == BatteryCategory then 2
    else if category == AnrCategory then 3
    else if category == SecurityCategory then 4
    else if category == BillingCategory then 5
    else 6
  }

  // ---------------------------------------------------------------------------
  // The facts each check reads.
  // ---------------------------------------------------------------------------

  const MinimumSdk := 31
  const BillingPermission := "com.android.vending.BILLING"
  const PlayBillingClient := "com.google.android.play.billingclient"

  /** A permission the privacy check treats as collecting sensitive data. */
  predicate IsPrivacySensitive(permission: string) {
    || Contains(permission, "READ_PHONE_STATE")
    || Contains(permission, "ACCESS_WIFI_STATE")
    || Contains(permission, "RECORD_AUDIO")
    || Contains(permission, "CAMERA")
    || Contains(permission, "READ_CONTACTS")
    || Contains(permission, "ACCESS_FINE_LOCATION")
  }

  /** The sensitive permissions, in declaration order. */
  function PrivacyPermissions(permissions: seq<string>): (r: seq<string>)
    ensures forall p :: p in r <==> p in permissions && IsPrivacySensitive(p)
    ensures IsSubsequence(r, permissions)
    ensures forall p :: multiset(r)[p] == if IsPrivacySensitive(p) then multiset(permissions)[p] else 0
  {
    FilterIsSubsequence(permissions, IsPrivacySensitive);
    FilterCounts(permissions, IsPrivacySensitive);
    Filter(permissions, IsPrivacySensitive)
  }

  /** A metadata entry whose lower-cased name mentions "privacy_policy". */
  predicate DeclaresPrivacyPolicy(entry: MetaData) {
    entry.name.Some? && Contains(ToLower(entry.name.value), "privacy_policy")
  }

  /** `metaData.some(...)`: some entry declares a privacy policy. */
  predicate HasPrivacyPolicy(metaData: seq<MetaData>) {
    exists i :: 0 <= i < |metaData| && DeclaresPrivacyPolicy(metaData[i])
  }

  /** The `some` holds exactly when filtering the entries by the same test leaves at least one. */
  lemma HasPrivacyPolicyIsSome(metaData: seq<MetaData>)
    ensures HasPrivacyPolicy(metaData) <==> Filter(metaData, DeclaresPrivacyPolicy) != []
  {
    var kept := Filter(metaData, DeclaresPrivacyPolicy);
    if kept != [] {
      assert kept[0] in kept;
    }
  }

  /** `!service.exported && !service.permission`: not exported (false or absent), no permission (absent or ""). */
  predicate IsBackgroundService(service: Service) {
    && (service.exported.None? || service.exported == Some(false))
    && (service.permission.None? || service.permission == Some(""))
  }

  function BackgroundServices(services: seq<Service>): seq<Service> {
    Filter(services, IsBackgroundService)
  }

  /** `service.name && !lower(name).includes("worker") && !lower(name).includes("job")`. */
  predicate IsRiskyService(service: Service) {
    && service.name.Some?
    && service.name.value != ""
    && !Contains(ToLower(service.name.value), "worker")
    && !Contains(ToLower(service.name.value), "job")
  }

  /** A service name with the Kelvin sign where a K would be is judged as if it had the K. */
  lemma KelvinSignLikeK(exported: Option<bool>, permission: Option<string>, pre: string, post: string)
    ensures IsRiskyService(Service(exported, permission, Some(pre + "\U{212A}" + post)))
        <==> IsRiskyService(Service(exported, permission, Some(pre + "K" + post)))
  {
    KelvinSignLowersLikeK(pre, post);
  }

  function RiskyServices(services: seq<Service>): seq<Service> {
    Filter(services, IsRiskyService)
  }

  function ServiceName(service: Service): string {
    match service.name
    case None => ""
    case Some(n) => n
  }

  function ServiceNames(services: seq<Service>): seq<string> {
    seq(|services|, i requires 0 <= i < |services| => ServiceName(services[i]))
  }

  /** `manifest.application?.debuggable === true`. */
  predicate IsDebuggable(application: Option<Application>) {
    application.Some? && application.value.debuggable == Some(true)
  }

  /** Only an explicit `true` counts: no application, an absent flag and `false` are not debuggable. */
  lemma DebuggableOnlyWhenTrue(application: Application)
    ensures !IsDebuggable(None)
    ensures !IsDebuggable(Some(application.(debuggable := None)))
    ensures !IsDebuggable(Some(application.(debuggable := Some(false))))
    ensures IsDebuggable(Some(application.(debuggable := Some(true))))
  {
  }

  /** A metadata entry whose name mentions the Play Billing client, case-sensitively. */
  predicate DeclaresPlayBilling(entry: MetaData) {
    entry.name.Some? && Contains(entry.name.value, PlayBillingClient)
  }

  /** `metaData.some(...)`: some entry declares the Play Billing client. */
  predicate UsesPlayBilling(metaData: seq<MetaData>) {
    exists i :: 0 <= i < |metaData| && DeclaresPlayBilling(metaData[i])
  }

  /** The `some` holds exactly when filtering the entries by the same test leaves at least one. */
  lemma UsesPlayBillingIsSome(metaData: seq<MetaData>)
    ensures UsesPlayBilling(metaData) <==> Filter(metaData, DeclaresPlayBilling) != []
  {
    var kept := Filter(metaData, DeclaresPlayBilling);
    if kept != [] {
      assert kept[0] in kept;
    }
  }

  // ---------------------------------------------------------------------------
  // The violation each check reports.
  // ---------------------------------------------------------------------------

  const SdkDescriptionHead := "App targets SDK version "
  const SdkDescriptionTail := ", which is below the required minimum of 31 (Android 12)"
  const SdkResolution := "Update targetSdkVersion to at least 31 in your build.gradle file and test compatibility"
  const PrivacyDescriptionHead := "App collects sensitive data ("
  const PrivacyDescriptionTail := ") but lacks a privacy policy URL in manifest"
  const PrivacyResolution := "Add privacy policy URL in manifest and implement user consent flow for data collection"
  const BatteryDescriptionHead := "Found "
  const BatteryDescriptionTail := " background services without proper declarations, which may drain battery"
  const BatteryResolution := "Use WorkManager for background tasks and implement proper battery optimizations"
  const AnrDescriptionHead := "Found "
  const AnrDescriptionMiddle := " services that might cause ANR issues: "
  const AnrResolution := "Move heavy operations to background threads and implement proper service lifecycle"
  const SecurityDescription := "App is debuggable in release build which is a security risk"
  const SecurityResolution := "Disable debugging for release builds and implement proper ProGuard configuration"
  const BillingDescription := "App uses billing permission but may not be using Google Play Billing"
  const BillingResolution := "Implement Google Play Billing API for all in-app purchases"

  function SdkViolation(sdkVersion: int): PolicyViolation {
    PolicyViolation(
      SdkCategory, SdkDescriptionHead + IntToString(sdkVersion) + SdkDescriptionTail, High, SdkResolution)
  }

  function PrivacyViolation(privacyPermissions: seq<string>): PolicyViolation {
    PolicyViolation(
      PrivacyCategory, PrivacyDescriptionHead + Join(privacyPermissions, ", ") + PrivacyDescriptionTail,
      High, PrivacyResolution)
  }

  function BatteryViolation(count: nat): PolicyViolation {
    PolicyViolation(
      BatteryCategory, BatteryDescriptionHead + NatToString(count) + BatteryDescriptionTail,
      Medium, BatteryResolution)
  }

  function AnrViolation(riskyServices: seq<Service>): PolicyViolation {
    PolicyViolation(
      AnrCategory,
      AnrDescriptionHead + NatToString(|riskyServices|) + AnrDescriptionMiddle
        + Join(ServiceNames(riskyServices), ", "),
      Medium, AnrResolution)
  }

  const SecurityViolation := PolicyViolation(SecurityCategory, SecurityDescription, High, SecurityResolution)

  const BillingViolation := PolicyViolation(BillingCategory, BillingDescription, High, BillingResolution)

  // ---------------------------------------------------------------------------
  // The six checks, each a function of the manifest facts it reads.
  // ---------------------------------------------------------------------------

  /** A description built around a joined list mentions the list and each of its items. */
  lemma ListedInDescription(prefix: string, items: seq<string>, suffix: string)
    ensures Contains(prefix + Join(items, ", ") + suffix, Join(items, ", "))
    ensures forall p :: p in items ==> Contains(prefix + Join(items, ", ") + suffix, p)
  {
    var joined := Join(items, ", ");
    var description := prefix + joined + suffix;
    ContainsMiddle(prefix, joined, suffix);
    forall p | p in items ensures Contains(description, p) {
      var k :| 0 <= k < |items| && items[k] == p;
      JoinContainsPart(items, ", ", k);
      ContainsTransitive(description, joined, p);
    }
  }

  /** A description ending in a joined list mentions each item of it. */
  lemma ListedAtEnd(prefix: string, items: seq<string>, k: nat)
    requires k < |items|
    ensures Contains(prefix + Join(items, ", "), items[k])
  {
    ContainsSuffix(prefix, Join(items, ", "));
    JoinContainsPart(items, ", ", k);
    ContainsTransitive(prefix + Join(items, ", "), Join(items, ", "), items[k]);
  }

  function SdkRule(sdkVersion: int): (r: Option<PolicyViolation>)
    ensures r.Some? <==> sdkVersion < MinimumSdk
    ensures r.Some? ==> r.value.category == SdkCategory && r.value.severity == High
    ensures r.Some? ==> Contains(r.value.description, IntToString(sdkVersion))
  {
    if sdkVersion < MinimumSdk then
      ContainsMiddle(SdkDescriptionHead, IntToString(sdkVersion), SdkDescriptionTail);
      Some(SdkViolation(sdkVersion))
    else None
  }

  function PrivacyRule(permissions: seq<string>, metaData: seq<MetaData>): (r: Option<PolicyViolation>)
    ensures r.Some? <==> |PrivacyPermissions(permissions)| > 0 && !HasPrivacyPolicy(metaData)
    ensures r.Some? ==> r.value.category == PrivacyCategory && r.value.severity == High
    ensures r.Some? ==> Contains(r.value.description, Join(PrivacyPermissions(permissions), ", "))
    ensures r.Some? ==> forall p :: p in PrivacyPermissions(permissions) ==> Contains(r.value.description, p)
  {
    var privacyPermissions := PrivacyPermissions(permissions);
    if |privacyPermissions| > 0 && !HasPrivacyPolicy(metaData) then
      ListedInDescription(PrivacyDescriptionHead, privacyPermissions, PrivacyDescriptionTail);
      Some(PrivacyViolation(privacyPermissions))
    else None
  }

  function BatteryRule(services: seq<Service>): (r: Option<PolicyViolation>)
    ensures r.Some? <==> |BackgroundServices(services)| > 2
    ensures r.Some? ==> r.value.category == BatteryCategory && r.value.severity == Medium
    ensures r.Some? ==> Contains(r.value.description, NatToString(|BackgroundServices(services)|))
  {
    var count := |BackgroundServices(services)|;
    if count > 2 then
      ContainsMiddle(BatteryDescriptionHead, NatToString(count), BatteryDescriptionTail);
      Some(BatteryViolation(count))
    else None
  }

  function AnrRule(services: seq<Service>): (r: Option<PolicyViolation>)
    ensures r.Some? <==> exists s :: s in services && IsRiskyService(s)
    ensures r.Some? ==> r.value.category == AnrCategory && r.value.severity == Medium
    ensures r.Some? ==> Contains(r.value.description, NatToString(|RiskyServices(services)|))
    ensures r.Some? ==> forall s :: s in RiskyServices(services) ==> Contains(r.value.description, ServiceName(s))
    ensures r.Some? ==> var listing := Join(ServiceNames(RiskyServices(services)), ", ");
      Contains(r.value.description, listing) && EndsWith(r.value.description, listing)
  {
    var risky := RiskyServices(services);
    if |risky| > 0 then
      assert risky[0] in risky;
      AnrDescriptionFacts(risky);
      AnrDescriptionListing(risky);
      Some(AnrViolation(risky))
    else
      assert forall s :: s in services ==> !IsRiskyService(s);
      None
  }

  /** The ANR description ends with the names of the listed services, in order, joined by ", ". */
  lemma AnrDescriptionListing(risky: seq<Service>)
    ensures Contains(AnrViolation(risky).description, Join(ServiceNames(risky), ", "))
    ensures EndsWith(AnrViolation(risky).description, Join(ServiceNames(risky), ", "))
  {
    var head := AnrDescriptionHead + NatToString(|risky|) + AnrDescriptionMiddle;
    ContainsSuffix(head, Join(ServiceNames(risky), ", "));
    EndsWithSuffix(head, Join(ServiceNames(risky), ", "));
  }

  /** The ANR description gives the count and every listed service's name. */
  lemma AnrDescriptionFacts(risky: seq<Service>)
    ensures Contains(AnrViolation(risky).description, NatToString(|risky|))
    ensures forall s :: s in risky ==> Contains(AnrViolation(risky).description, ServiceName(s))
  {
    var names := ServiceNames(risky);
    var head := AnrDescriptionHead + NatToString(|risky|) + AnrDescriptionMiddle;
    var description := AnrViolation(risky).description;
    ContainsMiddle(AnrDescriptionHead, NatToString(|risky|), AnrDescriptionMiddle);
    ContainsPrefix(head, Join(names, ", "));
    ContainsTransitive(description, head, NatToString(|risky|));
    forall s | s in risky ensures Contains(description, ServiceName(s)) {
      var k :| 0 <= k < |risky| && risky[k] == s;
      assert names[k] == ServiceName(s);
      ListedAtEnd(head, names, k);
    }
  }

  function SecurityRule(application: Option<Application>): (r: Option<PolicyViolation>)
    ensures r.Some? <==> IsDebuggable(application)
    ensures r.Some? ==> r.value.category == SecurityCategory && r.value.severity == High
  {
    if IsDebuggable(application) then Some(SecurityViolation) else None
  }

  function BillingRule(permissions: seq<string>, metaData: seq<MetaData>): (r: Option<PolicyViolation>)
    ensures r.Some? <==> BillingPermission in permissions && !UsesPlayBilling(metaData)
    ensures r.Some? ==> r.value.category == BillingCategory && r.value.severity == High
  {
    if BillingPermission in permissions && !UsesPlayBilling(metaData) then Some(BillingViolation) else None
  }

  /** The list holding an outcome's violation, if there is one. */
  function Listed(outcome: Option<PolicyViolation>): (vs: seq<PolicyViolation>)
    ensures |vs| <= 1
    ensures forall v :: v in vs <==> outcome == Some(v)
  {
    if outcome.Some? then [outcome.value] else []
  }

  /** The engine's output: the violations the six checks report, in check order. */
  function Violations(manifest: Manifest): (violations: seq<PolicyViolation>)
    ensures |violations| <= |Categories|
  {
    Listed(SdkRule(SdkVersion(manifest)))
      + Listed(PrivacyRule(PermissionNames(manifest), MetaDataOf(manifest)))
      + Listed(BatteryRule(ServicesOf(manifest)))
      + Listed(AnrRule(ServicesOf(manifest)))
      + Listed(SecurityRule(manifest.application))
      + Listed(BillingRule(PermissionNames(manifest), MetaDataOf(manifest)))
  }

  // ---------------------------------------------------------------------------
  // analyzeApk: six checks, each pushing at most one violation onto a local list.
  // ---------------------------------------------------------------------------

  /** The SDK version check: push the SDK violation when the target is below 31. */
  method CheckSdk(found: seq<PolicyViolation>, sdkVersion: int) returns (updated: seq<PolicyViolation>)
    ensures updated == found + Listed(SdkRule(sdkVersion))
  {
    updated := found;
    if sdkVersion < MinimumSdk {
      updated := updated + [SdkViolation(sdkVersion)];
    }
  }

  /** The privacy check: sensitive permissions without a privacy-policy metadata entry. */
  method CheckPrivacy(found: seq<PolicyViolation>, permissions: seq<string>, metaData: seq<MetaData>)
    returns (updated: seq<PolicyViolation>)
    ensures updated == found + Listed(PrivacyRule(permissions, metaData))
  {
    updated := found;
    var privacyPermissions := Filter(permissions, IsPrivacySensitive);
    if |privacyPermissions| > 0 {
      var hasPrivacyPolicy := HasPrivacyPolicy(metaData);
      if !hasPrivacyPolicy {
        updated := updated + [PrivacyViolation(privacyPermissions)];
      }
    }
  }

  /** The battery check: more than two background services. */
  method CheckBattery(found: seq<PolicyViolation>, services: seq<Service>) returns (updated: seq<PolicyViolation>)
    ensures updated == found + Listed(BatteryRule(services))
  {
    updated := found;
    var backgroundServices := Filter(services, IsBackgroundService);
    if |backgroundServices| > 2 {
      updated := updated + [BatteryViolation(|backgroundServices|)];
    }
  }

  /** The ANR check: any named service that is neither a worker nor a job. */
  method CheckAnr(found: seq<PolicyViolation>, services: seq<Service>) returns (updated: seq<PolicyViolation>)
    ensures updated == found + Listed(AnrRule(services))
  {
    updated := found;
    var riskyServices := Filter(services, IsRiskyService);
    if |riskyServices| > 0 {
      updated := updated + [AnrViolation(riskyServices)];
    }
  }

  /** The security check: a debuggable application. */
  method CheckSecurity(found: seq<PolicyViolation>, application: Option<Application>)
    returns (updated: seq<PolicyViolation>)
    ensures updated == found + Listed(SecurityRule(application))
  {
    updated := found;
    if application.Some? && application.value.debuggable == Some(true) {
      updated := updated + [SecurityViolation];
    }
  }

  /** The billing check: the billing permission without the Play Billing client. */
  method CheckBilling(found: seq<PolicyViolation>, permissions: seq<string>, metaData: seq<MetaData>)
    returns (updated: seq<PolicyViolation>)
    ensures updated == found + Listed(BillingRule(permissions, metaData))
  {
    updated := found;
    if BillingPermission in permissions {
      var usesPlayBilling := UsesPlayBilling(metaData);
      if !usesPlayBilling {
        updated := updated + [BillingViolation];
      }
    }
  }

  /** `analyzeApk` on an already decoded manifest: the defaults, then the six checks in order. */
  method AnalyzeApk(manifest: Manifest) returns (analysis: Analysis)
    ensures analysis.packageName == manifest.package
    ensures analysis.sdkVersion == SdkVersion(manifest)
    ensures manifest.usesSdk.None? ==> analysis.sdkVersion == 0
    ensures manifest.usesPermissions.None? ==> analysis.permissions == []
    ensures manifest.usesPermissions.Some? ==>
      && |analysis.permissions| == |manifest.usesPermissions.value|
      && forall i :: 0 <= i < |analysis.permissions| ==>
           analysis.permissions[i] == manifest.usesPermissions.value[i].name
    ensures analysis.policyViolations == Violations(manifest)
  {
    var packageName := manifest.package;
    var sdkVersion := SdkVersion(manifest);
    var permissions := PermissionNames(manifest);
    var policyViolations: seq<PolicyViolation> := [];
    policyViolations := CheckSdk(policyViolations, sdkVersion);
    assert policyViolations == Listed(SdkRule(sdkVersion));
    policyViolations := CheckPrivacy(policyViolations, permissions, MetaDataOf(manifest));
    policyViolations := CheckBattery(policyViolations, ServicesOf(manifest));
    policyViolations := CheckAnr(policyViolations, ServicesOf(manifest));
    policyViolations := CheckSecurity(policyViolations, manifest.application);
    policyViolations := CheckBilling(policyViolations, permissions, MetaDataOf(manifest));
    analysis := Analysis(packageName, sdkVersion, permissions, policyViolations);
  }

  // ---------------------------------------------------------------------------
  // What the engine's output looks like as a whole.
  // ---------------------------------------------------------------------------

  /** Categories appear in check order, each at most once. */
  predicate InCheckOrder(vs: seq<PolicyViolation>) {
    forall i, j :: 0 <= i < j < |vs| ==> Rank(vs[i].category) < Rank(vs[j].category)
  }

  predicate RanksBelow(vs: seq<PolicyViolation>, bound: nat) {
    forall i :: 0 <= i < |vs| ==> Rank(vs[i].category) < bound
  }

  /** Appending the outcome of check number `k` to the output of the checks before it keeps check order. */
  lemma AppendInCheckOrder(vs: seq<PolicyViolation>, outcome: Option<PolicyViolation>, k: nat)
    requires InCheckOrder(vs) && RanksBelow(vs, k)
    requires outcome.Some? ==> Rank(outcome.value.category) == k
    ensures InCheckOrder(vs + Listed(outcome)) && RanksBelow(vs + Listed(outcome), k + 1)
  {
  }

  /** Six outcomes whose categories rank 0 to 5 list their violations in check order. */
  lemma OutcomesInCheckOrder(
    sdk: Option<PolicyViolation>, privacy: Option<PolicyViolation>, battery: Option<PolicyViolation>,
    anr: Option<PolicyViolation>, security: Option<PolicyViolation>, billing: Option<PolicyViolation>)
    requires sdk.Some? ==> Rank(sdk.value.category) == 0
    requires privacy.Some? ==> Rank(privacy.value.category) == 1
    requires battery.Some? ==> Rank(battery.value.category) == 2
    requires anr.Some? ==> Rank(anr.value.category) == 3
    requires security.Some? ==> Rank(security.value.category) == 4
    requires billing.Some? ==> Rank(billing.value.category) == 5
    ensures InCheckOrder(Listed(sdk) + Listed(privacy) + Listed(battery) + Listed(anr) + Listed(security)
                           + Listed(billing))
    ensures RanksBelow(Listed(sdk) + Listed(privacy) + Listed(battery) + Listed(anr) + Listed(security)
                         + Listed(billing), 6)
  {
    var p1 := Listed(sdk);
    var p2 := p1 + Listed(privacy);
    var p3 := p2 + Listed(battery);
    var p4 := p3 + Listed(anr);
    var p5 := p4 + Listed(security);
    assert InCheckOrder(p1) && RanksBelow(p1, 1) by {
      AppendInCheckOrder([], sdk, 0);
      assert [] + Listed(sdk) == p1;
    }
    assert InCheckOrder(p2) && RanksBelow(p2, 2) by { AppendInCheckOrder(p1, privacy, 1); }
    assert InCheckOrder(p3) && RanksBelow(p3, 3) by { AppendInCheckOrder(p2, battery, 2); }
    assert InCheckOrder(p4) && RanksBelow(p4, 4) by { AppendInCheckOrder(p3, anr, 3); }
    assert InCheckOrder(p5) && RanksBelow(p5, 5) by { AppendInCheckOrder(p4, security, 4); }
    AppendInCheckOrder(p5, billing, 5);
  }

  /** The engine reports the categories in check order, so no category twice. */
  lemma ViolationsInCheckOrder(manifest: Manifest)
    ensures InCheckOrder(Violations(manifest))
    ensures RanksBelow(Violations(manifest), |Categories|)
  {
    OutcomesInCheckOrder(SdkRule(SdkVersion(manifest)), PrivacyRule(PermissionNames(manifest), MetaDataOf(manifest)),
      BatteryRule(ServicesOf(manifest)), AnrRule(ServicesOf(manifest)), SecurityRule(manifest.application),
      BillingRule(PermissionNames(manifest), MetaDataOf(manifest)));
  }

  /** At most one violation per category and at most six in all. */
  lemma OnePerCategory(manifest: Manifest)
    ensures |Violations(manifest)| <= |Categories|
    ensures forall i, j ::
      (0 <= i < |Violations(manifest)| && 0 <= j < |Violations(manifest)|
       && Violations(manifest)[i].category == Violations(manifest)[j].category) ==> i == j
  {
    ViolationsInCheckOrder(manifest);
  }

  /** Every reported violation is the outcome of one of the six checks, and every outcome is reported. */
  lemma ViolationsMembers(manifest: Manifest, v: PolicyViolation)
    ensures v in Violations(manifest) <==>
      || SdkRule(SdkVersion(manifest)) == Some(v)
      || PrivacyRule(PermissionNames(manifest), MetaDataOf(manifest)) == Some(v)
      || BatteryRule(ServicesOf(manifest)) == Some(v)
      || AnrRule(ServicesOf(manifest)) == Some(v)
      || SecurityRule(manifest.application) == Some(v)
      || BillingRule(PermissionNames(manifest), MetaDataOf(manifest)) == Some(v)
  {
  }

  /** Some violation in `vs` has the given category. */
  predicate Reports(vs: seq<PolicyViolation>, category: string) {
    exists v :: v in vs && v.category == category
  }

  lemma ReportsAppend(a: seq<PolicyViolation>, b: seq<PolicyViolation>, category: string)
    ensures Reports(a + b, category) <==> Reports(a, category) || Reports(b, category)
  {
    if Reports(a + b, category) {
      var v :| v in a + b && v.category == category;
    }
    if Reports(a, category) {
      var v :| v in a && v.category == category;
      assert v in a + b;
    }
    if Reports(b, category) {
      var v :| v in b && v.category == category;
      assert v in a + b;
    }
  }

  /** A category is reported exactly when one of the six outcomes carries it. */
  lemma ReportsOutcomes(
    sdk: Option<PolicyViolation>, privacy: Option<PolicyViolation>, battery: Option<PolicyViolation>,
    anr: Option<PolicyViolation>, security: Option<PolicyViolation>, billing: Option<PolicyViolation>,
    category: string)
    ensures Reports(Listed(sdk) + Listed(privacy) + Listed(battery) + Listed(anr) + Listed(security)
                      + Listed(billing), category)
        <==> || (sdk.Some? && sdk.value.category == category)
             || (privacy.Some? && privacy.value.category == category)
             || (battery.Some? && battery.value.category == category)
             || (anr.Some? && anr.value.category == category)
             || (security.Some? && security.value.category == category)
             || (billing.Some? && billing.value.category == category)
  {
    var l0, l1, l2 := Listed(sdk), Listed(privacy), Listed(battery);
    var l3, l4, l5 := Listed(anr), Listed(security), Listed(billing);
    ReportsAppend(l0 + l1 + l2 + l3 + l4, l5, category);
    ReportsAppend(l0 + l1 + l2 + l3, l4, category);
    ReportsAppend(l0 + l1 + l2, l3, category);
    ReportsAppend(l0 + l1, l2, category);
    ReportsAppend(l0, l1, category);
    assert Reports(l0, category) <==> sdk.Some? && sdk.value.category == category by {
      if sdk.Some? { assert sdk.value in l0; }
    }
    assert Reports(l1, category) <==> privacy.Some? && privacy.value.category == category by {
      if privacy.Some? { assert privacy.value in l1; }
    }
    assert Reports(l2, category) <==> battery.Some? && battery.value.category == category by {
      if battery.Some? { assert battery.value in l2; }
    }
    assert Reports(l3, category) <==> anr.Some? && anr.value.category == category by {
      if anr.Some? { assert anr.value in l3; }
    }
    assert Reports(l4, category) <==> security.Some? && security.value.category == category by {
      if security.Some? { assert security.value in l4; }
    }
    assert Reports(l5, category) <==> billing.Some? && billing.value.category == category by {
      if billing.Some? { assert billing.value in l5; }
    }
  }

  /** An SDK Version violation is reported exactly when the target SDK is below 31. */
  lemma SdkReported(manifest: Manifest)
    ensures Reports(Violations(manifest), SdkCategory) <==>
      SdkVersion(manifest) < MinimumSdk
  {
    ReportsOutcomes(SdkRule(SdkVersion(manifest)), PrivacyRule(PermissionNames(manifest), MetaDataOf(manifest)),
      BatteryRule(ServicesOf(manifest)), AnrRule(ServicesOf(manifest)), SecurityRule(manifest.application),
      BillingRule(PermissionNames(manifest), MetaDataOf(manifest)), SdkCategory);
  }

  /** A Privacy Policy violation is reported exactly when some permission is sensitive and no metadata entry names a privacy policy. */
  lemma PrivacyReported(manifest: Manifest)
    ensures Reports(Violations(manifest), PrivacyCategory) <==>
      |PrivacyPermissions(PermissionNames(manifest))| > 0 && !HasPrivacyPolicy(MetaDataOf(manifest))
  {
    ReportsOutcomes(SdkRule(SdkVersion(manifest)), PrivacyRule(PermissionNames(manifest), MetaDataOf(manifest)),
      BatteryRule(ServicesOf(manifest)), AnrRule(ServicesOf(manifest)), SecurityRule(manifest.application),
      BillingRule(PermissionNames(manifest), MetaDataOf(manifest)), PrivacyCategory);
  }

  /** A Battery Usage violation is reported exactly when more than two services run in the background. */
  lemma BatteryReported(manifest: Manifest)
    ensures Reports(Violations(manifest), BatteryCategory) <==>
      |BackgroundServices(ServicesOf(manifest))| > 2
  {
    ReportsOutcomes(SdkRule(SdkVersion(manifest)), PrivacyRule(PermissionNames(manifest), MetaDataOf(manifest)),
      BatteryRule(ServicesOf(manifest)), AnrRule(ServicesOf(manifest)), SecurityRule(manifest.application),
      BillingRule(PermissionNames(manifest), MetaDataOf(manifest)), BatteryCategory);
  }

  /** An ANR Risk violation is reported exactly when some named service is neither a worker nor a job. */
  lemma AnrReported(manifest: Manifest)
    ensures Reports(Violations(manifest), AnrCategory) <==>
      exists s :: s in ServicesOf(manifest) && IsRiskyService(s)
  {
    ReportsOutcomes(SdkRule(SdkVersion(manifest)), PrivacyRule(PermissionNames(manifest), MetaDataOf(manifest)),
      BatteryRule(ServicesOf(manifest)), AnrRule(ServicesOf(manifest)), SecurityRule(manifest.application),
      BillingRule(PermissionNames(manifest), MetaDataOf(manifest)), AnrCategory);
  }

  /** A Security violation is reported exactly when the application is debuggable. */
  lemma SecurityReported(manifest: Manifest)
    ensures Reports(Violations(manifest), SecurityCategory) <==>
      IsDebuggable(manifest.application)
  {
    ReportsOutcomes(SdkRule(SdkVersion(manifest)), PrivacyRule(PermissionNames(manifest), MetaDataOf(manifest)),
      BatteryRule(ServicesOf(manifest)), AnrRule(ServicesOf(manifest)), SecurityRule(manifest.application),
      BillingRule(PermissionNames(manifest), MetaDataOf(manifest)), SecurityCategory);
  }

  /** A Billing Compliance violation is reported exactly when the billing permission is declared and no metadata entry names the Play Billing client. */
  lemma BillingReported(manifest: Manifest)
    ensures Reports(Violations(manifest), BillingCategory) <==>
      BillingPermission in PermissionNames(manifest) && !UsesPlayBilling(MetaDataOf(manifest))
  {
    ReportsOutcomes(SdkRule(SdkVersion(manifest)), PrivacyRule(PermissionNames(manifest), MetaDataOf(manifest)),
      BatteryRule(ServicesOf(manifest)), AnrRule(ServicesOf(manifest)), SecurityRule(manifest.application),
      BillingRule(PermissionNames(manifest), MetaDataOf(manifest)), BillingCategory);
  }

  /** SDK, privacy, security and billing violations are high; battery and ANR ones are medium. */
  lemma ViolationSeverities(manifest: Manifest)
    ensures forall v :: v in Violations(manifest) ==>
      v.severity == (if v.category == BatteryCategory || v.category == AnrCategory then Medium else High)
  {
    forall v | v in Violations(manifest)
      ensures v.severity == (if v.category == BatteryCategory || v.category == AnrCategory then Medium else High)
    {
      ViolationsMembers(manifest, v);
    }
  }

  /** A manifest with nothing but a package name is flagged only for its SDK version, read as 0. */
  lemma BareManifest(package: string)
    ensures Violations(Manifest(package, None, None, None, None)) == [SdkViolation(0)]
  {
    var manifest := Manifest(package, None, None, None, None);
    assert PermissionNames(manifest) == [];
    assert ServicesOf(manifest) == [] && MetaDataOf(manifest) == [];
  }

  // ---------------------------------------------------------------------------
  // The upload filter and the three scan routes.
  // ---------------------------------------------------------------------------

  /** The upload filter accepts a file exactly when its original name ends in ".apk". */
  predicate IsApkFileName(originalName: string) {
    EndsWith(originalName, ".apk")
  }

  /** The accepted names are exactly a stem followed by ".apk". */
  lemma ApkFileNames(name: string)
    ensures IsApkFileName(name) <==> exists stem :: name == stem + ".apk"
  {
    if IsApkFileName(name) {
      var stem := name[..|name| - 4];
      assert name == stem + ".apk";
    }
  }

  /** The suffix test is case-sensitive: an upper-case ".APK" is refused. */
  lemma UpperCaseApkRefused(stem: string)
    ensures !IsApkFileName(stem + ".APK")
  {
    var name := stem + ".APK";
    assert name[|name| - 4..] == ".APK";
  }

  /** What the decoder makes of an accepted upload: a manifest, or the value it throws. */
  datatype Thrown = ErrorThrown(message: string) | OtherThrown
  datatype Upload = Upload(originalName: string, decoded: Result<Manifest, Thrown>)

  datatype Body = ScanBody(scan: Scan) | ScanListBody(scans: seq<Scan>) | MessageBody(message: string)
  datatype Response = Response(status: nat, body: Body)

  /** The message the upload route's catch sends for a thrown value. */
  function FailureMessage(thrown: Thrown): (message: string)
    ensures thrown.ErrorThrown? ==> message == thrown.message
    ensures thrown.OtherThrown? ==> message == "Failed to process APK"
  {
    match thrown
    case ErrorThrown(m) => m
    case OtherThrown => "Failed to process APK"
  }

  /** The record the upload route stores for an analysed file. */
  function ScanOf(originalName: string, analysis: Analysis): (insertScan: InsertScan)
    ensures insertScan.fileName == originalName && insertScan.status == Completed
    ensures insertScan.packageName == analysis.packageName && insertScan.sdkVersion == analysis.sdkVersion
    ensures insertScan.permissions == analysis.permissions
    ensures insertScan.policyViolations == analysis.policyViolations
  {
    InsertScan(originalName, analysis.packageName, analysis.sdkVersion, analysis.permissions,
               Completed, analysis.policyViolations)
  }

  /**
   * POST /api/scans. No file: 400. A file the filter refuses: the error handler's 500. A manifest
   * the decoder cannot read: 500 with the thrown message. Otherwise the analysed scan is stored
   * and returned.
   */
  method PostScan(store: MemStorage, upload: Option<Upload>, now: Timestamp) returns (response: Response)
    requires store.Valid()
    modifies store
    ensures store.Valid()
    ensures upload.None? ==> response == Response(400, MessageBody("No APK file uploaded"))
    ensures upload.Some? && !IsApkFileName(upload.value.originalName) ==>
      response == Response(500, MessageBody("Only APK files are allowed"))
    ensures upload.Some? && IsApkFileName(upload.value.originalName) && upload.value.decoded.Err? ==>
      response == Response(500, MessageBody(FailureMessage(upload.value.decoded.error)))
    ensures response.status != 200 ==>
      store.scans == old(store.scans) && store.currentId == old(store.currentId)
    ensures response.status == 200 <==>
      upload.Some? && IsApkFileName(upload.value.originalName) && upload.value.decoded.Ok?
    ensures response.status == 200 ==>
      && upload.Some? && upload.value.decoded.Ok?
      && var manifest := upload.value.decoded.value;
      && response.body.ScanBody?
      && response.body.scan.id == old(store.currentId)
      && response.body.scan.scannedAt == now
      && response.body.scan.fileName == upload.value.originalName
      && response.body.scan.status == Completed
      && response.body.scan.packageName == manifest.package
      && response.body.scan.sdkVersion == SdkVersion(manifest)
      && response.body.scan.permissions == PermissionNames(manifest)
      && response.body.scan.policyViolations == Violations(manifest)
      && store.scans == old(store.scans)[response.body.scan.id := response.body.scan]
      && store.currentId == old(store.currentId) + 1
  {
    if upload.None? {
      return Response(400, MessageBody("No APK file uploaded"));
    }
    var file := upload.value;
    if !IsApkFileName(file.originalName) {
      return Response(500, MessageBody("Only APK files are allowed"));
    }
    match file.decoded
    case Err(thrown) =>
      response := Response(500, MessageBody(FailureMessage(thrown)));
    case Ok(manifest) =>
      var analysis := AnalyzeApk(manifest);
      var scan := store.CreateScan(ScanOf(file.originalName, analysis), now);
      response := Response(200, ScanBody(scan));
  }

  /** GET /api/scans: every stored scan, newest first. */
  method ListScans(store: MemStorage) returns (response: Response)
    requires store.Valid()
    ensures response.status == 200 && response.body.ScanListBody?
    ensures |response.body.scans| == |store.scans|
    ensures forall id :: id in store.scans ==> store.scans[id] in response.body.scans
    ensures forall s :: s in response.body.scans ==> s.id in store.scans && store.scans[s.id] == s
    ensures NewestFirst(response.body.scans)
    ensures forall i, j :: 0 <= i < j < |response.body.scans| ==> response.body.scans[i] != response.body.scans[j]
  {
    var scans := store.GetAllScans();
    response := Response(200, ScanListBody(scans));
  }

  /**
   * GET /api/scans/:id, given what `parseInt` makes of the path segment (None for NaN):
   * the stored scan, or 404 when there is none.
   */
  method GetScanById(store: MemStorage, id: Option<int>) returns (response: Response)
    requires store.Valid()
    ensures id.Some? && id.value in store.scans ==> response == Response(200, ScanBody(store.scans[id.value]))
    ensures id.None? || id.value !in store.scans ==> response == Response(404, MessageBody("Scan not found"))
  {
    if id.None? {
      return Response(404, MessageBody("Scan not found"));
    }
    var scan := store.GetScan(id.value);
    if scan.None? {
      return Response(404, MessageBody("Scan not found"));
    }
    response := Response(200, ScanBody(scan.value));
  }
}
