/** The suite as mocha runs it: the verdicts of a document's checks, in
    report order. Within a `describe` block mocha runs the block's own `it`s
    first and then its nested `describe`s, in the order they were declared. */
module Validator {
  import opened Json
  import opened Chai
  import opened Report
  import opened Rules
  import opened Schema

  /** The `it`s of one version record, in either list. */
  function RecordChecks(scope: Scope, mode: Mode, record: Json): (vs: seq<Verdict>)
    requires scope.RecordScope?
    ensures forall i :: 0 <= i < |vs| ==> vs[i].scope == scope && Placed(vs[i])
    ensures AllPass(vs) <==> RecordOk(mode, record)
    ensures (exists i :: 0 <= i < |vs| && vs[i].rule == DescribesVulnerability) <==> DeclaresVulnerable(record)
  {
    var describe := if DeclaresVulnerable(record)
                    then [Verdict(scope, DescribesVulnerability, VulnerabilityDescribed(record))]
                    else [];
    var vs := [Verdict(scope, ValidStatus, StatusOk(mode, record))]
              + describe
              + [Verdict(scope, AffectedVersion, AffectedVersionOk(record)),
                 Verdict(scope, DetectionType, DetectionTypeOk(record)),
                 Verdict(scope, Platform, PlatformOk(mode, record))];
    if DeclaresVulnerable(record) then
      assert vs[1].rule == DescribesVulnerability;
      assert AllPass(vs) ==> vs[0].pass && vs[1].pass && vs[2].pass && vs[3].pass && vs[4].pass;
      vs
    else
      assert forall i :: 0 <= i < |vs| ==> vs[i].rule != DescribesVulnerability;
      assert AllPass(vs) ==> vs[0].pass && vs[1].pass && vs[2].pass && vs[3].pass;
      vs
  }

  /** The records of one list of one OS key, one `describe` each. */
  function RecordSuites(plugin: Key, os: Key, mode: Mode, records: seq<(Key, Json)>): (vs: seq<Verdict>)
    ensures forall i :: 0 <= i < |vs| ==>
              && vs[i].scope.RecordScope?
              && vs[i].scope.plugin == plugin && vs[i].scope.os == os && vs[i].scope.mode == mode
              && Placed(vs[i])
    ensures forall i :: 0 <= i < |vs| ==>
              exists j :: 0 <= j < |records| && vs[i].scope == RecordScope(plugin, os, mode, records[j].0)
    ensures AllPass(vs) <==> forall i :: 0 <= i < |records| ==> RecordOk(mode, records[i].1)
  {
    if |records| == 0 then []
    else
      var first := RecordChecks(RecordScope(plugin, os, mode, records[0].0), mode, records[0].1);
      var rest := RecordSuites(plugin, os, mode, records[1..]);
      AllPassAppend(first, rest);
      assert forall i :: 1 <= i < |records| ==> records[i] == records[1..][i - 1];
      var vs := first + rest;
      assert forall i :: 0 <= i < |vs| ==>
               exists j :: 0 <= j < |records| && vs[i].scope == RecordScope(plugin, os, mode, records[j].0) by {
        forall i | 0 <= i < |vs|
          ensures exists j :: 0 <= j < |records| && vs[i].scope == RecordScope(plugin, os, mode, records[j].0)
        {
          if i < |first| {
            assert vs[i].scope == RecordScope(plugin, os, mode, records[0].0);
          } else {
            assert vs[i] == rest[i - |first|];
            var j :| 0 <= j < |records[1..]| && rest[i - |first|].scope == RecordScope(plugin, os, mode, records[1..][j].0);
            assert vs[i].scope == RecordScope(plugin, os, mode, records[j + 1].0);
          }
        }
      }
      vs
  }

  /** The two `it`s of an OS key's own block. */
  function OsKeyChecks(plugin: Key, os: Key, group: Json): seq<Verdict>
  {
    [Verdict(OsScope(plugin, os), KnownOs, KnownOsKey(os)),
     Verdict(OsScope(plugin, os), LatestArray, HasLatest(group))]
  }

  /** The `describe` of one OS key: its two `it`s, then the records of its
      latest list, then those of its vulnerable list. */
  function OsSuite(plugin: Key, os: Key, group: Json): (vs: seq<Verdict>)
    ensures forall i :: 0 <= i < |vs| ==>
              vs[i].scope.Plugin() == Some(plugin) && !vs[i].scope.PluginScope? && Placed(vs[i])
  {
    var latest := Prop(Some(group), "latest");
    var vulnerable := Prop(Some(group), "vulnerable");
    var checks := OsKeyChecks(plugin, os, group);
    var latestSuites := RecordSuites(plugin, os, Latest, ForIn(latest));
    var vulnerableSuites := RecordSuites(plugin, os, Vulnerable, ForIn(vulnerable));
    var vs := checks + latestSuites + vulnerableSuites;
    assert forall i :: 0 <= i < |vs| ==>
             vs[i].scope.Plugin() == Some(plugin) && !vs[i].scope.PluginScope? && Placed(vs[i]) by {
      forall i | 0 <= i < |vs|
        ensures vs[i].scope.Plugin() == Some(plugin) && !vs[i].scope.PluginScope? && Placed(vs[i])
      {
        if i < 2 {
          assert vs[i] == checks[i];
        } else if i < 2 + |latestSuites| {
          assert vs[i] == latestSuites[i - 2];
        } else {
          assert vs[i] == vulnerableSuites[i - 2 - |latestSuites|];
        }
      }
    }
    vs
  }

  /** The OS keys of one plugin's `versions`, one `describe` each. */
  function OsSuites(plugin: Key, groups: seq<(Key, Json)>): (vs: seq<Verdict>)
    ensures forall i :: 0 <= i < |vs| ==>
              vs[i].scope.Plugin() == Some(plugin) && !vs[i].scope.PluginScope? && Placed(vs[i])
  {
    if |groups| == 0 then []
    else OsSuite(plugin, groups[0].0, groups[0].1) + OsSuites(plugin, groups[1..])
  }

  /** The `it`s of one plugin's `describe`, in declaration order. */
  function PluginChecks(name: Key, plugin: Json, mimeTypes: Option<Json>): (vs: seq<Verdict>)
    ensures forall i :: 0 <= i < |vs| ==> vs[i].scope == PluginScope(name) && Placed(vs[i])
    ensures AllPass(vs) <==>
              && plugin.JObject?
              && IsString(Prop(Some(plugin), "display_name"))
              && IsString(Prop(Some(plugin), "description"))
              && IsObject(Prop(Some(plugin), "versions"))
              && KnownMimesOk(Prop(Some(plugin), "mimes"), mimeTypes)
              && IsString(Prop(Some(plugin), "url"))
              && RegexOk(Prop(Some(plugin), "regex"))
  {
    var p := Some(plugin);
    var s := PluginScope(name);
    var vs := [Verdict(s, PluginObject, IsObject(p)),
               Verdict(s, DisplayName, IsString(Prop(p, "display_name"))),
               Verdict(s, Description, IsString(Prop(p, "description"))),
               Verdict(s, HasVersions, IsObject(Prop(p, "versions"))),
               Verdict(s, KnownMimes, KnownMimesOk(Prop(p, "mimes"), mimeTypes)),
               Verdict(s, Url, IsString(Prop(p, "url"))),
               Verdict(s, Regex, RegexOk(Prop(p, "regex")))];
    assert AllPass(vs) ==> vs[0].pass && vs[1].pass && vs[2].pass && vs[3].pass
                           && vs[4].pass && vs[5].pass && vs[6].pass;
    vs
  }

  /** The whole `describe` of one plugin. */
  function PluginSuite(name: Key, plugin: Json, mimeTypes: Option<Json>): (vs: seq<Verdict>)
    ensures forall i :: 0 <= i < |vs| ==> vs[i].scope.Plugin() == Some(name) && Placed(vs[i])
  {
    PluginChecks(name, plugin, mimeTypes) + OsSuites(name, ForIn(Prop(Some(plugin), "versions")))
  }

  /** The plugins, one `describe` each, in for-in order. */
  function PluginSuites(plugins: seq<(Key, Json)>, mimeTypes: Option<Json>): (vs: seq<Verdict>)
    ensures forall i :: 0 <= i < |vs| ==> Placed(vs[i]) && vs[i].scope.Plugin().Some?
  {
    if |plugins| == 0 then []
    else PluginSuite(plugins[0].0, plugins[0].1, mimeTypes) + PluginSuites(plugins[1..], mimeTypes)
  }

  /** Every verdict of the plugin blocks lies inside the block of one of the
      plugins. */
  lemma {:induction false} PluginSuitesScopes(plugins: seq<(Key, Json)>, mimeTypes: Option<Json>)
    ensures forall i :: 0 <= i < |PluginSuites(plugins, mimeTypes)| ==>
              exists j :: 0 <= j < |plugins| && PluginSuites(plugins, mimeTypes)[i].scope.Plugin() == Some(plugins[j].0)
  {
    if |plugins| > 0 {
      var first := PluginSuite(plugins[0].0, plugins[0].1, mimeTypes);
      var rest := PluginSuites(plugins[1..], mimeTypes);
      var vs: seq<Verdict> := first + rest;
      assert PluginSuites(plugins, mimeTypes) == vs;
      PluginSuitesScopes(plugins[1..], mimeTypes);
      forall i | 0 <= i < |vs|
        ensures exists j :: 0 <= j < |plugins| && PluginSuites(plugins, mimeTypes)[i].scope.Plugin() == Some(plugins[j].0)
      {
        if i < |first| {
          assert vs[i] == first[i];
          assert vs[i].scope.Plugin() == Some(plugins[0].0);
        } else {
          assert vs[i] == rest[i - |first|];
          var j :| 0 <= j < |plugins[1..]| && rest[i - |first|].scope.Plugin() == Some(plugins[1..][j].0);
          assert vs[i].scope.Plugin() == Some(plugins[j + 1].0);
        }
      }
    } else {
      assert PluginSuites(plugins, mimeTypes) == [];
    }
  }

  /** One check per element of `mime_types`, in order. */
  function MimeTypeChecks(mimeTypes: seq<Json>): (vs: seq<Verdict>)
    ensures |vs| == |mimeTypes|
    ensures forall i :: 0 <= i < |vs| ==> vs[i].scope == MimeTypeAt(i) && Placed(vs[i])
    ensures AllPass(vs) <==> forall m :: m in mimeTypes ==> Includes(m, "/")
  {
    var vs := seq(|mimeTypes|, i requires 0 <= i < |mimeTypes| =>
                Verdict(MimeTypeAt(i), MimeTypeValid, Includes(mimeTypes[i], "/")));
    assert AllPass(vs) ==> forall m :: m in mimeTypes ==> Includes(m, "/") by {
      if AllPass(vs) {
        forall m | m in mimeTypes ensures Includes(m, "/") {
          var i :| 0 <= i < |mimeTypes| && mimeTypes[i] == m;
          assert vs[i].pass;
        }
      }
    }
    vs
  }

  /** The values `for...of` visits: the elements of an array, or the
      characters of a string, each as a one-character string. Other values
      are not iterable, and the suite stops before it runs any check. */
  function Elements(v: Option<Json>): seq<Json>
  {
    if IsArray(v) then v.value.elements
    else if v.Some? && v.value.JString? then
      seq(|v.value.s|, i requires 0 <= i < |v.value.s| => JString([v.value.s[i]]))
    else []
  }

  /** The two top-level `it`s and the non-empty check of the `mime_types`
      block, in report order. */
  function TopLevelChecks(doc: Json): seq<Verdict>
  {
    var mimeTypes := Prop(Some(doc), "mime_types");
    var plugins := Prop(Some(doc), "plugins");
    [Verdict(Document, MimeTypesArray, IsArray(mimeTypes)),
     Verdict(Document, PluginsObject, IsObject(plugins)),
     Verdict(Document, MimeTypesNonEmpty, NotEmpty(mimeTypes))]
  }

  /** The non-empty check of the `plugins` block. */
  function PluginsNonEmptyCheck(doc: Json): seq<Verdict>
  {
    [Verdict(Document, PluginsNonEmpty, NotEmpty(Prop(Some(doc), "plugins")))]
  }

  /** The verdicts before the plugin blocks: the two top-level `it`s, the
      `mime_types` block, and the non-empty check of the `plugins` block. */
  function Prelude(doc: Json): (vs: seq<Verdict>)
    ensures forall i :: 0 <= i < |vs| ==> vs[i].scope.Plugin() == None && Placed(vs[i])
  {
    var mimeTypes := Prop(Some(doc), "mime_types");
    TopLevelChecks(doc)
    + MimeTypeChecks(Elements(mimeTypes))
    + PluginsNonEmptyCheck(doc)
  }

  /** The whole run over a parsed document: the prelude, then one block per
      plugin. */
  function Validate(doc: Json): (vs: seq<Verdict>)
    ensures forall i :: 0 <= i < |vs| ==> Placed(vs[i])
  {
    Prelude(doc) + PluginSuites(ForIn(Prop(Some(doc), "plugins")), Prop(Some(doc), "mime_types"))
  }
}
