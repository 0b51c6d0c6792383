/**
 * The pure helpers and the small loops of the scan-results view: the per-severity impact text,
 * the per-category remediation steps and code examples, the grouping of violations by severity
 * and the counts shown from it, the permission badges, and the page layout of the PDF report.
 */
module ScanResults {
  import opened Wrappers
  import opened Seqs
  import opened Text
  import opened Schema

  // ---------------------------------------------------------------------------
  // Impact, remediation steps and code examples.
  // ---------------------------------------------------------------------------

  const HighImpact := "High impact - May prevent app approval"
  const MediumImpact := "Medium impact - Requires attention before release"
  const LowImpact := "Low impact - Consider fixing in future updates"

  /** `getViolationImpact`: a fixed text for each of the three severity names, "" for anything else. */
  function ViolationImpact(severity: string): (impact: string)
    ensures impact != "" <==> ParseSeverity(severity).Some?
    ensures ParseSeverity(severity) == Some(High) ==> impact == HighImpact
    ensures ParseSeverity(severity) == Some(Medium) ==> impact == MediumImpact
    ensures ParseSeverity(severity) == Some(Low) ==> impact == LowImpact
  {
    if severity == "high" then HighImpact
    else if severity == "medium" then MediumImpact
    else if severity == "low" then LowImpact
    else ""
  }

  /** Every severity a violation can carry has an impact text, and the three texts differ. */
  lemma ImpactOfEverySeverity(severity: Severity, other: Severity)
    ensures ViolationImpact(SeverityName(severity)) != ""
    ensures severity != other ==> ViolationImpact(SeverityName(severity)) != ViolationImpact(SeverityName(other))
  {
    ParseSeverityName(severity);
    ParseSeverityName(other);
  }

  const SdkSteps := [
    "1. Update build.gradle targetSdkVersion",
    "2. Test app compatibility",
    "3. Review API changes",
    "4. Update deprecated code"]
  const PrivacySteps := [
    "1. Create comprehensive privacy policy",
    "2. Add policy URL to manifest",
    "3. Implement user consent flow",
    "4. Review data collection practices"]
  const BatterySteps := [
    "1. Implement WorkManager",
    "2. Optimize background services",
    "3. Add battery optimization exceptions",
    "4. Monitor battery consumption"]
  const PerformanceSteps := [
    "1. Move heavy operations to background",
    "2. Implement proper threading",
    "3. Add ANR monitoring",
    "4. Optimize service lifecycle"]

  /** The categories the view has remediation steps and a code example for. */
  predicate HasGuidance(category: string) {
    category == "SDK Version" || category == "Privacy Policy" || category == "Battery Usage"
      || category == "Performance"
  }

  /** `getRemediationSteps`: four steps for the four guided categories, none for any other. */
  function RemediationSteps(category: string): (steps: seq<string>)
    ensures HasGuidance(category) ==> |steps| == 4
    ensures !HasGuidance(category) ==> steps == []
    ensures category == "SDK Version" ==> steps == SdkSteps
    ensures category == "Privacy Policy" ==> steps == PrivacySteps
    ensures category == "Battery Usage" ==> steps == BatterySteps
    ensures category == "Performance" ==> steps == PerformanceSteps
  {
    if category == "SDK Version" then SdkSteps
    else if category == "Privacy Policy" then PrivacySteps
    else if category == "Battery Usage" then BatterySteps
    else if category == "Performance" then PerformanceSteps
    else []
  }

  const SdkExample :=
    "// In build.gradle\nandroid {\n    defaultConfig {\n        targetSdkVersion 31\n        // ...\n    }\n}"
  const PrivacyExample :=
    "// In AndroidManifest.xml\n<application>\n    <meta-data\n        android:name=\"privacy_policy_url\"\n"
    + "        android:value=\"https://example.com/privacy\" />\n</application>"
  const BatteryExample :=
    "// Using WorkManager\nval workRequest = PeriodicWorkRequestBuilder<MyWorker>(1, TimeUnit.HOURS)\n"
    + "    .setConstraints(Constraints.Builder()\n        .setRequiresBatteryNotLow(true)\n        .build())\n"
    + "    .build()\n\nWorkManager.getInstance(context).enqueue(workRequest)"
  const PerformanceExample :=
    "// Proper background threading\ncoroutineScope.launch(Dispatchers.IO) {\n    // Heavy operation\n"
    + "    withContext(Dispatchers.Main) {\n        // Update UI\n    }\n}"

  /** `getCodeExample`: a snippet for the four guided categories, "" (so nothing is shown) otherwise. */
  function CodeExample(category: string): (example: string)
    ensures example != "" <==> HasGuidance(category)
    ensures category == "SDK Version" ==> example == SdkExample
    ensures category == "Privacy Policy" ==> example == PrivacyExample
    ensures category == "Battery Usage" ==> example == BatteryExample
    ensures category == "Performance" ==> example == PerformanceExample
  {
    if category == "SDK Version" then SdkExample
    else if category == "Privacy Policy" then PrivacyExample
    else if category == "Battery Usage" then BatteryExample
    else if category == "Performance" then PerformanceExample
    else ""
  }

  /** A category shows remediation steps exactly when it shows a code example. */
  lemma StepsIffExample(category: string)
    ensures |RemediationSteps(category)| > 0 <==> CodeExample(category) != ""
  {
  }

  /**
   * Of the six categories the engine reports, only the first three get guidance; the ANR
   * check's category is "ANR Risk", so the "Performance" steps are never shown for it.
   */
  lemma EngineCategoriesGuidance()
    ensures HasGuidance("SDK Version") && HasGuidance("Privacy Policy") && HasGuidance("Battery Usage")
    ensures RemediationSteps("ANR Risk") == [] && CodeExample("ANR Risk") == ""
    ensures RemediationSteps("Security") == [] && CodeExample("Security") == ""
    ensures RemediationSteps("Billing Compliance") == [] && CodeExample("Billing Compliance") == ""
  {
  }

  // ---------------------------------------------------------------------------
  // Grouping by severity, and the counts read from the groups.
  // ---------------------------------------------------------------------------

  /** The violations of one severity, in their original order. */
  function Bucket(violations: seq<PolicyViolation>, severity: Severity): seq<PolicyViolation> {
    Filter(violations, (v: PolicyViolation) => v.severity == severity)
  }

  /** A bucket holds exactly the violations of its severity, in their original order. */
  lemma BucketMembers(violations: seq<PolicyViolation>, severity: Severity)
    ensures forall v :: v in Bucket(violations, severity) <==> v in violations && v.severity == severity
    ensures IsSubsequence(Bucket(violations, severity), violations)
  {
    FilterIsSubsequence(violations, (v: PolicyViolation) => v.severity == severity);
  }

  /**
   * What the reduce builds from `violations`, for one severity: a key exactly when that severity
   * occurs, holding that severity's violations in order.
   */
  predicate GroupOf(groups: map<Severity, seq<PolicyViolation>>, violations: seq<PolicyViolation>, severity: Severity) {
    && (severity in groups <==> Bucket(violations, severity) != [])
    && (severity in groups ==> groups[severity] == Bucket(violations, severity))
  }

  /** The whole reduce result: every severity grouped exactly. */
  predicate GroupsOf(groups: map<Severity, seq<PolicyViolation>>, violations: seq<PolicyViolation>) {
    GroupOf(groups, violations, Low) && GroupOf(groups, violations, Medium) && GroupOf(groups, violations, High)
  }

  lemma BucketSnoc(violations: seq<PolicyViolation>, v: PolicyViolation, severity: Severity)
    ensures Bucket(violations + [v], severity)
         == Bucket(violations, severity) + (if v.severity == severity then [v] else [])
  {
    var f := (x: PolicyViolation) => x.severity == severity;
    FilterAppend(violations, [v], f);
    assert [v][..0] == [];
  }

  /** Pushing the next violation onto its severity's list keeps each group exact. */
  lemma GroupOfStep(
    groups: map<Severity, seq<PolicyViolation>>, violations: seq<PolicyViolation>, i: nat,
    updated: map<Severity, seq<PolicyViolation>>, severity: Severity)
    requires i < |violations| && GroupOf(groups, violations[..i], severity)
    requires updated == groups[violations[i].severity :=
      (if violations[i].severity in groups then groups[violations[i].severity] else []) + [violations[i]]]
    ensures GroupOf(updated, violations[..i + 1], severity)
  {
    assert violations[..i + 1] == violations[..i] + [violations[i]];
    BucketSnoc(violations[..i], violations[i], severity);
  }

  /** The reduce over `scan.policyViolations`, pushing each violation onto its severity's list. */
  method GroupBySeverity(violations: seq<PolicyViolation>) returns (groups: map<Severity, seq<PolicyViolation>>)
    ensures GroupsOf(groups, violations)
  {
    groups := map[];
    for i := 0 to |violations|
      invariant GroupsOf(groups, violations[..i])
    {
      var v := violations[i];
      ghost var before := groups;
      if v.severity !in groups {
        groups := groups[v.severity := []];
      }
      groups := groups[v.severity := groups[v.severity] + [v]];
      assert GroupsOf(groups, violations[..i + 1]) by {
        GroupOfStep(before, violations, i, groups, Low);
        GroupOfStep(before, violations, i, groups, Medium);
        GroupOfStep(before, violations, i, groups, High);
      }
    }
    assert violations[..|violations|] == violations;
  }

  /** `violationsBySeverity.high?.length || 0`. */
  function HighRiskCount(groups: map<Severity, seq<PolicyViolation>>): nat {
    if High in groups then |groups[High]| else 0
  }

  /** `(violationsBySeverity.medium?.length || 0) + (violationsBySeverity.low?.length || 0)`. */
  function OtherIssuesCount(groups: map<Severity, seq<PolicyViolation>>): nat {
    (if Medium in groups then |groups[Medium]| else 0) + (if Low in groups then |groups[Low]| else 0)
  }

  /** The three buckets together hold every violation. */
  lemma {:induction false} BucketSizes(violations: seq<PolicyViolation>)
    ensures |Bucket(violations, High)| + |Bucket(violations, Medium)| + |Bucket(violations, Low)|
         == |violations|
  {
    if |violations| > 0 {
      var init, last := violations[..|violations| - 1], violations[|violations| - 1];
      assert violations == init + [last];
      BucketSizes(init);
      BucketSnoc(init, last, High);
      BucketSnoc(init, last, Medium);
      BucketSnoc(init, last, Low);
    }
  }

  /** The two counts on the summary cards: high, and medium plus low, adding up to all violations. */
  lemma SummaryCounts(groups: map<Severity, seq<PolicyViolation>>, violations: seq<PolicyViolation>)
    requires GroupsOf(groups, violations)
    ensures HighRiskCount(groups) == |Bucket(violations, High)|
    ensures HighRiskCount(groups) == 0 <==> forall v :: v in violations ==> v.severity != High
    ensures OtherIssuesCount(groups) == |Bucket(violations, Medium)| + |Bucket(violations, Low)|
    ensures HighRiskCount(groups) + OtherIssuesCount(groups) == |violations|
  {
    BucketSizes(violations);
    assert High in groups || Bucket(violations, High) == [];
    assert Medium in groups || Bucket(violations, Medium) == [];
    assert Low in groups || Bucket(violations, Low) == [];
    if |Bucket(violations, High)| > 0 {
      assert Bucket(violations, High)[0] in Bucket(violations, High);
    }
  }

  // ---------------------------------------------------------------------------
  // Permission badges.
  // ---------------------------------------------------------------------------

  const PermissionSeparator := ".permission."

  /**
   * The badge text: `permission.split('.permission.')[1]` when the separator occurs, that is
   * the text between its first occurrence and the next one (or the end); the whole string otherwise.
   */
  function PermissionLabel(permission: string): (badge: string)
    ensures !Contains(permission, PermissionSeparator) ==> badge == permission
    ensures Contains(permission, PermissionSeparator) ==> !Contains(badge, PermissionSeparator)
  {
    if Contains(permission, PermissionSeparator) then SplitSecond(permission, PermissionSeparator)
    else permission
  }

  /** The badge is the whole split segment after the first separator, up to the next one or the end. */
  lemma PermissionLabelIsSplitSegment(permission: string, i: nat)
    requires FirstOccurrence(permission, PermissionSeparator, i)
    ensures SegmentBefore(permission[i + |PermissionSeparator|..], PermissionSeparator, PermissionLabel(permission))
  {
    SplitSecondIsSegment(permission, PermissionSeparator, i);
  }

  /** When the separator occurs, its first occurrence exists and the badge is the segment after it. */
  lemma PermissionLabelPosition(permission: string)
    requires Contains(permission, PermissionSeparator)
    ensures exists i: nat :: FirstOccurrence(permission, PermissionSeparator, i)
                      && SegmentBefore(permission[i + |PermissionSeparator|..], PermissionSeparator,
                                       PermissionLabel(permission))
  {
    var i := IndexOf(permission, PermissionSeparator).value;
    assert FirstOccurrence(permission, PermissionSeparator, i);
    PermissionLabelIsSplitSegment(permission, i);
  }

  const AndroidPrefix := "android.permission."

  /** A platform permission `android.permission.NAME` shows as `NAME`. */
  lemma AndroidPermissionLabel(name: string)
    requires !Contains(name, PermissionSeparator)
    ensures PermissionLabel(AndroidPrefix + name) == name
  {
    assert AndroidPrefix == "android" + PermissionSeparator;
    assert forall k :: 0 <= k < |"android"| ==> "android"[k] != PermissionSeparator[0];
    NoOccurrenceInHead("android", PermissionSeparator, name);
    SplitSecondAfterHead("android", PermissionSeparator, name);
  }

  /** A badge is drawn red for a dangerous-looking permission. */
  predicate IsHighlighted(permission: string) {
    || Contains(ToLower(permission), "dangerous")
    || Contains(permission, "SMS")
    || Contains(permission, "LOCATION")
    || Contains(permission, "CAMERA")
    || Contains(permission, "CONTACTS")
  }

  /** The camera, contacts and fine-location permissions the privacy check flags are also drawn red. */
  lemma PrivacyPermissionsHighlighted(permission: string)
    requires Contains(permission, "CAMERA") || Contains(permission, "READ_CONTACTS")
          || Contains(permission, "ACCESS_FINE_LOCATION")
    ensures IsHighlighted(permission)
  {
    if Contains(permission, "READ_CONTACTS") {
      ContainsSuffix("READ_", "CONTACTS");
      assert "READ_" + "CONTACTS" == "READ_CONTACTS";
      ContainsTransitive(permission, "READ_CONTACTS", "CONTACTS");
    }
    if Contains(permission, "ACCESS_FINE_LOCATION") {
      ContainsSuffix("ACCESS_FINE_", "LOCATION");
      assert "ACCESS_FINE_" + "LOCATION" == "ACCESS_FINE_LOCATION";
      ContainsTransitive(permission, "ACCESS_FINE_LOCATION", "LOCATION");
    }
  }

  // ---------------------------------------------------------------------------
  // The PDF report: where each violation is drawn, and the page footers.
  // ---------------------------------------------------------------------------

  /** A page number (from 1) and a vertical offset. */
  datatype Placement = Placement(page: nat, y: nat)

  const FirstOffset := 75
  const HeadingHeight := 10
  const EntryHeight := 40
  const PageBreakAbove := 270
  const TopOffset := 20

  /**
   * Where violation `k` (from 0) is drawn: five entries fit on the first page below the header,
   * seven on each following page.
   */
  function PlacementOf(k: nat): (p: Placement)
    ensures p.page >= 1 && TopOffset <= p.y <= PageBreakAbove
  {
    if k < 5 then Placement(1, FirstOffset + HeadingHeight + EntryHeight * k)
    else Placement(2 + (k - 5) / 7, TopOffset + EntryHeight * ((k - 5) % 7))
  }

  /** The number of pages the report has with `count` violations. */
  function PageCount(count: nat): (pages: nat)
    ensures pages >= 1
    ensures count > 0 ==> pages == PlacementOf(count - 1).page
  {
    if count <= 5 then 1 else 2 + (count - 6) / 7
  }

  /** Drawing the next entry: keep going down the page, or start a new one past 270. */
  lemma PlacementStep(k: nat)
    ensures PlacementOf(k + 1) ==
      if PlacementOf(k).y + EntryHeight > PageBreakAbove
      then Placement(PlacementOf(k).page + 1, TopOffset)
      else Placement(PlacementOf(k).page, PlacementOf(k).y + EntryHeight)
  {
    if k >= 5 {
      var q, r := (k - 5) / 7, (k - 5) % 7;
      assert k - 5 == 7 * q + r;
      if r == 6 {
        assert k + 1 - 5 == 7 * (q + 1) + 0;
      } else {
        assert k + 1 - 5 == 7 * q + (r + 1);
      }
    }
  }

  /**
   * `downloadReport`'s offset arithmetic: the offset starts at 75, the heading adds 10 when there are
   * violations, each violation adds 40, and an offset above 270 first moves to a new page at 20.
   */
  method LayoutReport(count: nat) returns (placements: seq<Placement>, pages: nat)
    ensures |placements| == count
    ensures forall k :: 0 <= k < count ==> placements[k] == PlacementOf(k)
    ensures pages == PageCount(count)
  {
    var yOffset := FirstOffset;
    pages := 1;
    placements := [];
    if count > 0 {
      yOffset := yOffset + HeadingHeight;
      for i := 0 to count
        invariant |placements| == i
        invariant forall k :: 0 <= k < i ==> placements[k] == PlacementOf(k)
        invariant i == 0 ==> yOffset == FirstOffset + HeadingHeight && pages == 1
        invariant i > 0 ==> yOffset == PlacementOf(i - 1).y + EntryHeight && pages == PlacementOf(i - 1).page
      {
        if yOffset > PageBreakAbove {
          pages := pages + 1;
          yOffset := TopOffset;
        }
        if i > 0 {
          PlacementStep(i - 1);
        }
        placements := placements + [Placement(pages, yOffset)];
        yOffset := yOffset + EntryHeight;
      }
    }
  }

  /**
   * Entry headings are drawn between 20 and 260. On the first page every entry's last line (at
   * 30 below its heading) stays above the footer line at 285; the seventh entry of a later page
   * is drawn at 260, so its resolution line lands at 290, under the footer.
   */
  lemma EntryBounds(k: nat)
    ensures TopOffset <= PlacementOf(k).y <= 260
    ensures PlacementOf(k).page == 1 ==> PlacementOf(k).y + 30 < 285
    ensures k >= 5 && (k - 5) % 7 == 6 ==> PlacementOf(k).y + 30 == 290
  {
  }

  /** The placements go down each page and move to the next page only at a page break. */
  lemma PlacementsInOrder(j: nat, k: nat)
    requires j < k
    ensures PlacementOf(j).page < PlacementOf(k).page
         || (PlacementOf(j).page == PlacementOf(k).page && PlacementOf(j).y < PlacementOf(k).y)
  {
    if j < 5 && k >= 5 {
    } else if j >= 5 {
      var a, b := j - 5, k - 5;
      assert a == 7 * (a / 7) + a % 7;
      assert b == 7 * (b / 7) + b % 7;
    }
  }

  function FooterLabel(page: nat, pageCount: nat): string {
    "Page " + NatToString(page) + " of " + NatToString(pageCount)
  }

  /** `addFooter`: the label "Page i of N" for every page i from 1 to N. */
  method FooterLabels(pageCount: nat) returns (labels: seq<string>)
    ensures |labels| == pageCount
    ensures forall k :: 0 <= k < pageCount ==> labels[k] == FooterLabel(k + 1, pageCount)
  {
    labels := [];
    var i := 1;
    while i <= pageCount
      invariant 1 <= i <= pageCount + 1
      invariant |labels| == i - 1
      invariant forall k :: 0 <= k < i - 1 ==> labels[k] == FooterLabel(k + 1, pageCount)
    {
      labels := labels + [FooterLabel(i, pageCount)];
      i := i + 1;
    }
  }

  /** Different pages get different footers. */
  lemma FooterLabelsDistinct(i: nat, j: nat, pageCount: nat)
    requires FooterLabel(i, pageCount) == FooterLabel(j, pageCount)
    ensures i == j
  {
    var tail := " of " + NatToString(pageCount);
    assert FooterLabel(i, pageCount) == "Page " + NatToString(i) + tail;
    assert FooterLabel(j, pageCount) == "Page " + NatToString(j) + tail;
    ConcatCancel("Page ", NatToString(i), NatToString(j), tail);
    NatToStringInjective(i, j);
  }
}
