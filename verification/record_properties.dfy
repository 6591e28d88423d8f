/** Properties of the checks below a plugin: the OS-key checks of its
    `versions` object and the checks of each version record, in both modes. */
module RecordProperties {
  import opened Json
  import opened Chai
  import opened Strings
  import opened Report
  import opened Rules
  import opened Schema
  import opened Validator

  /** The status check is membership of a string status in the mode's list
      of statuses; a status the vulnerable list accepts the latest list
      accepts too. */
  lemma StatusRule(mode: Mode, record: Json)
    ensures var st := Prop(Some(record), "status");
            StatusOk(mode, record) <==> st.Some? && st.value.JString? && st.value.s in Statuses(mode)
    ensures StatusOk(Vulnerable, record) ==> StatusOk(Latest, record)
  {
    OneOfStringsIsMembership(Prop(Some(record), "status"), Statuses(Latest));
  }

  /** The rules of a record's checks are pairwise distinct, so each occurs
      once. */
  lemma RecordCheckOnce(scope: Scope, mode: Mode, record: Json, i: nat)
    requires scope.RecordScope?
    requires i < |RecordChecks(scope, mode, record)|
    ensures var vs := RecordChecks(scope, mode, record);
            WithRule(vs, vs[i].rule) == [vs[i]]
  {
    var vs := RecordChecks(scope, mode, record);
    WithRuleUnique(vs, vs[i].rule, i);
  }

  /** A record's block holds one verdict of each of its four unconditional
      rules, and a vulnerability verdict exactly when its status is the
      string "vulnerable". */
  lemma RecordRules(scope: Scope, mode: Mode, record: Json)
    requires scope.RecordScope?
    ensures var vs := RecordChecks(scope, mode, record);
            && WithRule(vs, ValidStatus) == [Verdict(scope, ValidStatus, StatusOk(mode, record))]
            && WithRule(vs, AffectedVersion) == [Verdict(scope, AffectedVersion, AffectedVersionOk(record))]
            && WithRule(vs, DetectionType) == [Verdict(scope, DetectionType, DetectionTypeOk(record))]
            && WithRule(vs, Platform) == [Verdict(scope, Platform, PlatformOk(mode, record))]
            && WithRule(vs, DescribesVulnerability)
               == if DeclaresVulnerable(record)
                  then [Verdict(scope, DescribesVulnerability, VulnerabilityDescribed(record))]
                  else []
  {
    var vs := RecordChecks(scope, mode, record);
    var d := if DeclaresVulnerable(record) then 1 else 0;
    assert |vs| == d + 4;
    RecordCheckOnce(scope, mode, record, 0);
    RecordCheckOnce(scope, mode, record, d + 1);
    RecordCheckOnce(scope, mode, record, d + 2);
    RecordCheckOnce(scope, mode, record, d + 3);
    if DeclaresVulnerable(record) {
      RecordCheckOnce(scope, mode, record, 1);
    } else {
      WithRuleNone(vs, DescribesVulnerability);
    }
  }

  /** The affected-version check passes exactly for a string with fewer than
      four dots. */
  lemma AffectedVersionMeaning(record: Json)
    ensures var v := Prop(Some(record), "version");
            AffectedVersionOk(record) <==> IsString(v) && Count(v.value.s, '.') < 4
  {
    var v := Prop(Some(record), "version");
    if IsString(v) {
      assert |Split(v.value.s, '.')| == Count(v.value.s, '.') + 1;
    }
  }

  /** A record whose only member is `version`. */
  function VersionRecord(version: string): Json
  {
    JObject([("version", JString(version))])
  }

  /** Five components are too many... */
  lemma TooManyComponents()
    ensures !AffectedVersionOk(VersionRecord("12.0.0.1.5"))
  {
    SplitFive("12", "0", "0", "1", "5", '.');
    assert "12" + "." + "0" + "." + "0" + "." + "1" + "." + "5" == "12.0.0.1.5";
  }

  /** ... two are not... */
  lemma TwoComponents()
    ensures AffectedVersionOk(VersionRecord("12.0"))
  {
    SplitTwo("12", "0", '.');
    assert "12" + "." + "0" == "12.0";
  }

  /** ... and a non-numeric component passes, since the per-component check
      cannot fail. */
  lemma NonNumericComponent()
    ensures Split("12.x", '.') == ["12", "x"]
    ensures AffectedVersionOk(VersionRecord("12.x"))
  {
    SplitTwo("12", "x", '.');
    assert "12" + "." + "x" == "12.x";
  }

  /** The platform check, spelled out: an object whose `app_id` and `locale`
      are "*", whose `app_release` is one of the mode's releases and whose
      `app_version` is one of the allowed versions. */
  lemma PlatformMeaning(mode: Mode, record: Json)
    ensures var p := Prop(Some(record), "platform");
            var release := Prop(p, "app_release");
            var version := Prop(p, "app_version");
            PlatformOk(mode, record)
            <==> && IsObject(p)
                 && Prop(p, "app_id") == Some(JString("*"))
                 && release.Some? && release.value.JString? && release.value.s in AppReleases(mode)
                 && version.Some? && version.value.JString? && version.value.s in AppVersions
                 && Prop(p, "locale") == Some(JString("*"))
  {
    var p := Prop(Some(record), "platform");
    OneOfStringsIsMembership(Prop(p, "app_release"), AppReleases(Vulnerable));
    OneOfStringsIsMembership(Prop(p, "app_version"), AppVersions);
  }

  /** The two modes' platform checks differ only in `app_release`: a
      platform the latest list accepts the vulnerable list accepts too, and
      one accepted only by the vulnerable list is an extended release. */
  lemma PlatformModes(record: Json)
    ensures PlatformOk(Latest, record) ==> PlatformOk(Vulnerable, record)
    ensures PlatformOk(Vulnerable, record) && !PlatformOk(Latest, record)
            ==> Prop(Prop(Some(record), "platform"), "app_release") == Some(JString("Extended Release Version"))
  {
    PlatformMeaning(Latest, record);
    PlatformMeaning(Vulnerable, record);
  }

  /** A platform descriptor with every field at its wildcard but
      `app_release`. */
  function PlatformWith(release: string): Json
  {
    JObject([("app_id", JString("*")), ("app_release", JString(release)),
             ("app_version", JString("*")), ("locale", JString("*"))])
  }

  /** A complete record with the given status and platform. */
  function SampleRecord(status: string, platform: Json): Json
  {
    JObject([("status", JString(status)), ("version", JString("12.0")),
             ("detection_type", JString("original")), ("platform", platform)])
  }

  /** The members of the sample platform and record, as property reads. */
  lemma SampleFields(status: string, release: string)
    ensures var p := Some(PlatformWith(release));
            && Prop(p, "app_id") == Some(JString("*"))
            && Prop(p, "app_release") == Some(JString(release))
            && Prop(p, "app_version") == Some(JString("*"))
            && Prop(p, "locale") == Some(JString("*"))
    ensures var r := Some(SampleRecord(status, PlatformWith(release)));
            && Prop(r, "status") == Some(JString(status))
            && Prop(r, "version") == Some(JString("12.0"))
            && Prop(r, "detection_type") == Some(JString("original"))
            && Prop(r, "platform") == Some(PlatformWith(release))
            && Prop(r, "vulnerability_url") == None
  {
    var p := PlatformWith(release).members;
    LookupUnique(p, 0);
    LookupUnique(p, 1);
    LookupUnique(p, 2);
    LookupUnique(p, 3);
    var r := SampleRecord(status, PlatformWith(release)).members;
    LookupUnique(r, 0);
    LookupUnique(r, 1);
    LookupUnique(r, 2);
    LookupUnique(r, 3);
    LookupLast(r, "vulnerability_url");
  }

  /** An extended release is accepted in the vulnerable list only. */
  lemma ExtendedReleaseExample()
    ensures var r := SampleRecord("vulnerable", PlatformWith("Extended Release Version"));
            !PlatformOk(Latest, r) && PlatformOk(Vulnerable, r)
  {
    var r := SampleRecord("vulnerable", PlatformWith("Extended Release Version"));
    SampleFields("vulnerable", "Extended Release Version");
    PlatformMeaning(Latest, r);
    PlatformMeaning(Vulnerable, r);
    assert "Extended Release Version" != "*";
  }

  /** The sample record, with a status its mode accepts, passes every check
      but the vulnerability check: it has no `vulnerability_url`. */
  lemma SampleRecordChecks(status: string, mode: Mode)
    requires status in Statuses(mode)
    ensures var r := SampleRecord(status, PlatformWith("*"));
            && StatusOk(mode, r) && AffectedVersionOk(r) && DetectionTypeOk(r) && PlatformOk(mode, r)
            && !VulnerabilityDescribed(r)
  {
    var r := SampleRecord(status, PlatformWith("*"));
    SampleFields(status, "*");
    StatusRule(mode, r);
    TwoComponents();
    PlatformMeaning(mode, r);
  }

  /** A latest record without `vulnerability_url` passes, and is not asked
      for one... */
  lemma LatestRecordWithoutUrl(scope: Scope)
    requires scope.RecordScope?
    ensures var r := SampleRecord("latest", PlatformWith("*"));
            && RecordOk(Latest, r)
            && WithRule(RecordChecks(scope, Latest, r), DescribesVulnerability) == []
  {
    var r := SampleRecord("latest", PlatformWith("*"));
    SampleFields("latest", "*");
    SampleRecordChecks("latest", Latest);
    RecordRules(scope, Latest, r);
  }

  /** In the vulnerable list, a record whose only defect is a missing or
      non-string `vulnerability_url` fails that one check and no other... */
  lemma OnlyUrlMissing(scope: Scope, r: Json)
    requires scope.RecordScope?
    requires StatusOk(Vulnerable, r) && AffectedVersionOk(r) && DetectionTypeOk(r) && PlatformOk(Vulnerable, r)
    requires !VulnerabilityDescribed(r)
    ensures var vs := RecordChecks(scope, Vulnerable, r);
            && !RecordOk(Vulnerable, r)
            && WithRule(vs, DescribesVulnerability) == [Verdict(scope, DescribesVulnerability, false)]
            && forall i :: 0 <= i < |vs| && !vs[i].pass ==> vs[i].rule == DescribesVulnerability
  {
    var vs := RecordChecks(scope, Vulnerable, r);
    assert DeclaresVulnerable(r);
    assert vs == [Verdict(scope, ValidStatus, true), Verdict(scope, DescribesVulnerability, false),
                  Verdict(scope, AffectedVersion, true), Verdict(scope, DetectionType, true),
                  Verdict(scope, Platform, true)];
    WithRuleUnique(vs, DescribesVulnerability, 1);
  }

  /** ... as the sample vulnerable record without a URL does. */
  lemma VulnerableRecordWithoutUrl(scope: Scope)
    requires scope.RecordScope?
    ensures var r := SampleRecord("vulnerable", PlatformWith("*"));
            var vs := RecordChecks(scope, Vulnerable, r);
            && !RecordOk(Vulnerable, r)
            && forall i :: 0 <= i < |vs| && !vs[i].pass ==> vs[i].rule == DescribesVulnerability
  {
    SampleRecordChecks("vulnerable", Vulnerable);
    OnlyUrlMissing(scope, SampleRecord("vulnerable", PlatformWith("*")));
  }

  /** The records of one list get one status verdict each, in list order,
      at their own scope. */
  lemma {:induction false} RecordStatusVerdicts(plugin: Key, os: Key, mode: Mode, records: seq<(Key, Json)>)
    ensures var vs := WithRule(RecordSuites(plugin, os, mode, records), ValidStatus);
            && |vs| == |records|
            && forall i :: 0 <= i < |vs| ==>
                 vs[i] == Verdict(RecordScope(plugin, os, mode, records[i].0), ValidStatus, StatusOk(mode, records[i].1))
  {
    if |records| > 0 {
      var scope := RecordScope(plugin, os, mode, records[0].0);
      var first := RecordChecks(scope, mode, records[0].1);
      var rest := RecordSuites(plugin, os, mode, records[1..]);
      assert RecordSuites(plugin, os, mode, records) == first + rest;
      WithRuleAppend(first, rest, ValidStatus);
      RecordCheckOnce(scope, mode, records[0].1, 0);
      RecordStatusVerdicts(plugin, os, mode, records[1..]);
    }
  }

  /** The record blocks under an OS key carry none of the OS-key rules. */
  lemma RecordSuitesWithoutOsRules(plugin: Key, os: Key, mode: Mode, records: seq<(Key, Json)>)
    ensures WithRule(RecordSuites(plugin, os, mode, records), KnownOs) == []
    ensures WithRule(RecordSuites(plugin, os, mode, records), LatestArray) == []
  {
    var vs := RecordSuites(plugin, os, mode, records);
    assert forall i :: 0 <= i < |vs| ==> vs[i].rule != KnownOs && vs[i].rule != LatestArray by {
      forall i | 0 <= i < |vs| ensures vs[i].rule != KnownOs && vs[i].rule != LatestArray {
        assert Placed(vs[i]) && vs[i].scope.RecordScope?;
      }
    }
    WithRuleNone(vs, KnownOs);
    WithRuleNone(vs, LatestArray);
  }

  /** The two checks of an OS key: the key is one of the four OS names (an
      array index never is), and its `latest` member is an array. */
  lemma OsKeyVerdicts(plugin: Key, os: Key, group: Json)
    ensures var vs := OsSuite(plugin, os, group);
            && WithRule(vs, KnownOs) == [Verdict(OsScope(plugin, os), KnownOs, os.Name? && os.name in OsNames)]
            && WithRule(vs, LatestArray) == [Verdict(OsScope(plugin, os), LatestArray, IsArray(Prop(Some(group), "latest")))]
  {
    var checks := OsKeyChecks(plugin, os, group);
    var latest := RecordSuites(plugin, os, Latest, ForIn(Prop(Some(group), "latest")));
    var vulnerable := RecordSuites(plugin, os, Vulnerable, ForIn(Prop(Some(group), "vulnerable")));
    assert OsSuite(plugin, os, group) == checks + latest + vulnerable;
    RecordSuitesWithoutOsRules(plugin, os, Latest, ForIn(Prop(Some(group), "latest")));
    RecordSuitesWithoutOsRules(plugin, os, Vulnerable, ForIn(Prop(Some(group), "vulnerable")));
    WithRuleAppend(checks + latest, vulnerable, KnownOs);
    WithRuleAppend(checks, latest, KnownOs);
    WithRuleAppend(checks + latest, vulnerable, LatestArray);
    WithRuleAppend(checks, latest, LatestArray);
    WithRuleUnique(checks, KnownOs, 0);
    WithRuleUnique(checks, LatestArray, 1);
    if os.Name? {
      OneOfStringsIsMembership(Some(JString(os.name)), OsNames);
    }
  }

  /** One OS-key verdict per key of `versions`, in for-in order. */
  lemma {:induction false} OsKeyVerdictPerKey(plugin: Key, groups: seq<(Key, Json)>)
    ensures var vs := WithRule(OsSuites(plugin, groups), KnownOs);
            && |vs| == |groups|
            && forall i :: 0 <= i < |vs| ==>
                 vs[i] == Verdict(OsScope(plugin, groups[i].0), KnownOs, groups[i].0.Name? && groups[i].0.name in OsNames)
  {
    if |groups| > 0 {
      var first := OsSuite(plugin, groups[0].0, groups[0].1);
      var rest := OsSuites(plugin, groups[1..]);
      assert OsSuites(plugin, groups) == first + rest;
      WithRuleAppend(first, rest, KnownOs);
      OsKeyVerdicts(plugin, groups[0].0, groups[0].1);
      OsKeyVerdictPerKey(plugin, groups[1..]);
    }
  }

  /** Without a `vulnerable` member an OS key reports nothing in vulnerable
      mode: its block is its two checks and its latest records. */
  lemma AbsentVulnerableList(plugin: Key, os: Key, group: Json)
    requires Prop(Some(group), "vulnerable").None?
    ensures OsSuite(plugin, os, group)
            == OsKeyChecks(plugin, os, group)
               + RecordSuites(plugin, os, Latest, ForIn(Prop(Some(group), "latest")))
    ensures forall i :: 0 <= i < |OsSuite(plugin, os, group)| ==>
              OsSuite(plugin, os, group)[i].scope.RecordScope? ==> OsSuite(plugin, os, group)[i].scope.mode == Latest
  {
    assert RecordSuites(plugin, os, Vulnerable, ForIn(Prop(Some(group), "vulnerable"))) == [];
  }
}
