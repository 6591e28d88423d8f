/** The generated suite against the declarative schema: a run is green
    exactly when the document is a valid catalog, level by level. */
module Soundness {
  import opened Json
  import opened Chai
  import opened Report
  import opened Rules
  import opened Schema
  import opened Validator

  /** Every record `for...in` reaches in a list is valid exactly when every
      child of the list is. */
  lemma RecordListEntries(mode: Mode, list: Option<Json>)
    ensures (forall i :: 0 <= i < |ForIn(list)| ==> RecordOk(mode, ForIn(list)[i].1))
            <==> RecordListOk(mode, list)
  {
    var entries := ForIn(list);
    ForInVisitsChildren(list);
    if forall i :: 0 <= i < |entries| ==> RecordOk(mode, entries[i].1) {
      forall x | IsChild(x, list) ensures RecordOk(mode, x) {
        var i :| 0 <= i < |entries| && entries[i].1 == x;
      }
    }
    if RecordListOk(mode, list) {
      forall i | 0 <= i < |entries| ensures RecordOk(mode, entries[i].1) {
        assert IsChild(entries[i].1, list);
      }
    }
  }

  /** An OS key's block is green exactly when the key is an OS name and its
      group is valid. */
  lemma OsSuitePasses(plugin: Key, os: Key, group: Json)
    ensures AllPass(OsSuite(plugin, os, group)) <==> KnownOsKey(os) && GroupOk(group)
  {
    var latest := Prop(Some(group), "latest");
    var vulnerable := Prop(Some(group), "vulnerable");
    var checks := OsKeyChecks(plugin, os, group);
    var latestSuites := RecordSuites(plugin, os, Latest, ForIn(latest));
    var vulnerableSuites := RecordSuites(plugin, os, Vulnerable, ForIn(vulnerable));
    assert OsSuite(plugin, os, group) == checks + latestSuites + vulnerableSuites;
    RecordListEntries(Latest, latest);
    RecordListEntries(Vulnerable, vulnerable);
    AllPassAppend(checks, latestSuites);
    AllPassAppend(checks + latestSuites, vulnerableSuites);
    assert AllPass(checks) <==> KnownOsKey(os) && HasLatest(group) by {
      assert checks[0].pass == KnownOsKey(os) && checks[1].pass == HasLatest(group);
    }
  }

  lemma {:induction false} OsSuitesPass(plugin: Key, groups: seq<(Key, Json)>)
    ensures AllPass(OsSuites(plugin, groups))
            <==> forall i :: 0 <= i < |groups| ==> KnownOsKey(groups[i].0) && GroupOk(groups[i].1)
  {
    if |groups| > 0 {
      var first := OsSuite(plugin, groups[0].0, groups[0].1);
      var tail := groups[1..];
      var rest := OsSuites(plugin, tail);
      assert OsSuites(plugin, groups) == first + rest;
      OsSuitePasses(plugin, groups[0].0, groups[0].1);
      OsSuitesPass(plugin, tail);
      AllPassAppend(first, rest);
      assert forall i :: 1 <= i < |groups| ==> groups[i] == tail[i - 1];
    }
  }

  /** The OS groups of a plugin are valid exactly when `versions` is a valid
      object of groups, provided it is an object at all. */
  lemma VersionsEntries(versions: Option<Json>)
    requires IsObject(versions)
    ensures (forall i :: 0 <= i < |ForIn(versions)| ==>
               KnownOsKey(ForIn(versions)[i].0) && GroupOk(ForIn(versions)[i].1))
            <==> VersionsOk(versions)
  {
    var entries := ForIn(versions);
    var ms := versions.value.members;
    ForInObject(ms);
    if forall i :: 0 <= i < |entries| ==> KnownOsKey(entries[i].0) && GroupOk(entries[i].1) {
      forall os | HasKey(ms, os) ensures os in OsNames && GroupOk(Member(ms, os)) {
        var i :| 0 <= i < |entries| && entries[i].0 == Name(os);
        assert KnownOsKey(entries[i].0);
        OneOfStringsIsMembership(Some(JString(os)), OsNames);
      }
    }
    if VersionsOk(versions) {
      forall i | 0 <= i < |entries| ensures KnownOsKey(entries[i].0) && GroupOk(entries[i].1) {
        var os := entries[i].0.name;
        assert Lookup(ms, os) == Some(entries[i].1);
        assert HasKey(ms, os);
        OneOfStringsIsMembership(Some(JString(os)), OsNames);
      }
    }
  }

  /** A plugin's block is green exactly when the plugin is valid. */
  lemma PluginSuitePasses(name: Key, plugin: Json, mimeTypes: Option<Json>)
    ensures AllPass(PluginSuite(name, plugin, mimeTypes)) <==> PluginOk(plugin, mimeTypes)
  {
    var versions := Prop(Some(plugin), "versions");
    var checks := PluginChecks(name, plugin, mimeTypes);
    var groups := OsSuites(name, ForIn(versions));
    AllPassAppend(checks, groups);
    OsSuitesPass(name, ForIn(versions));
    if IsObject(versions) {
      VersionsEntries(versions);
    }
  }

  lemma {:induction false} PluginSuitesPass(plugins: seq<(Key, Json)>, mimeTypes: Option<Json>)
    ensures AllPass(PluginSuites(plugins, mimeTypes))
            <==> forall i :: 0 <= i < |plugins| ==> PluginOk(plugins[i].1, mimeTypes)
  {
    if |plugins| > 0 {
      PluginSuitePasses(plugins[0].0, plugins[0].1, mimeTypes);
      PluginSuitesPass(plugins[1..], mimeTypes);
      AllPassAppend(PluginSuite(plugins[0].0, plugins[0].1, mimeTypes), PluginSuites(plugins[1..], mimeTypes));
      assert forall i :: 1 <= i < |plugins| ==> plugins[i] == plugins[1..][i - 1];
    }
  }

  /** The prelude is green exactly when `mime_types` is a non-empty array of
      values including "/" and `plugins` is a non-empty object. */
  lemma PreludePasses(doc: Json)
    ensures var mimeTypes := Prop(Some(doc), "mime_types");
            var plugins := Prop(Some(doc), "plugins");
            AllPass(Prelude(doc))
            <==> && IsArray(mimeTypes)
                 && |mimeTypes.value.elements| > 0
                 && (forall m :: m in mimeTypes.value.elements ==> Includes(m, "/"))
                 && IsObject(plugins)
                 && |plugins.value.members| > 0
  {
    var mimeTypes := Prop(Some(doc), "mime_types");
    var plugins := Prop(Some(doc), "plugins");
    var head := TopLevelChecks(doc);
    var mimeChecks := MimeTypeChecks(Elements(mimeTypes));
    var last := PluginsNonEmptyCheck(doc);
    assert Prelude(doc) == head + mimeChecks + last;
    AllPassAppend(head + mimeChecks, last);
    AllPassAppend(head, mimeChecks);
    assert AllPass(head) <==> IsArray(mimeTypes) && IsObject(plugins) && NotEmpty(mimeTypes) by {
      assert head[0].pass == IsArray(mimeTypes) && head[1].pass == IsObject(plugins)
             && head[2].pass == NotEmpty(mimeTypes);
    }
    assert AllPass(last) <==> NotEmpty(plugins) by {
      assert last[0].pass == NotEmpty(plugins);
    }
  }

  /** Every plugin `for...in` visits in a `plugins` object is valid exactly
      when every member of the object is. */
  lemma PluginsEntries(ms: seq<(string, Json)>, mimeTypes: Option<Json>)
    ensures var entries := ForIn(Some(JObject(ms)));
            (forall i :: 0 <= i < |entries| ==> PluginOk(entries[i].1, mimeTypes))
            <==> forall name :: HasKey(ms, name) ==> PluginOk(Member(ms, name), mimeTypes)
  {
    var entries := ForIn(Some(JObject(ms)));
    ForInObject(ms);
    if forall i :: 0 <= i < |entries| ==> PluginOk(entries[i].1, mimeTypes) {
      forall name | HasKey(ms, name) ensures PluginOk(Member(ms, name), mimeTypes) {
        var i :| 0 <= i < |entries| && entries[i].0 == Name(name);
        assert Lookup(ms, name) == Some(entries[i].1);
      }
    }
    if forall name :: HasKey(ms, name) ==> PluginOk(Member(ms, name), mimeTypes) {
      forall i | 0 <= i < |entries| ensures PluginOk(entries[i].1, mimeTypes) {
        var name := entries[i].0.name;
        assert Lookup(ms, name) == Some(entries[i].1);
        assert HasKey(ms, name);
      }
    }
  }

  /** The run over a document is green exactly when the document is a valid
      catalog. */
  lemma ValidateIsCatalogOk(doc: Json)
    ensures AllPass(Validate(doc)) <==> CatalogOk(doc)
  {
    var mimeTypes := Prop(Some(doc), "mime_types");
    var plugins := Prop(Some(doc), "plugins");
    var entries := ForIn(plugins);
    AllPassAppend(Prelude(doc), PluginSuites(entries, mimeTypes));
    PreludePasses(doc);
    PluginSuitesPass(entries, mimeTypes);
    if IsObject(plugins) {
      PluginsEntries(plugins.value.members, mimeTypes);
    }
  }
}
