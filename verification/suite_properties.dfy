/** Properties of the whole run: the MIME type checks, the checks of one
    plugin, the one referential check, and the independence of plugins. */
module SuiteProperties {
  import opened Json
  import opened Chai
  import opened Report
  import opened Rules
  import opened Schema
  import opened Validator

  /** The value `for...in` reads for key `k`, if it visits `k` at all. */
  function EntryFor(entries: seq<(Key, Json)>, k: Key): (r: Option<Json>)
    ensures r.None? <==> forall i :: 0 <= i < |entries| ==> entries[i].0 != k
    ensures r.Some? ==> exists i :: 0 <= i < |entries| && entries[i] == (k, r.value)
  {
    if |entries| == 0 then None
    else if entries[0].0 == k then Some(entries[0].1)
    else
      var r := EntryFor(entries[1..], k);
      assert forall i :: 1 <= i < |entries| ==> entries[i] == entries[1..][i - 1];
      r
  }

  /** The block of plugin `k` given its entry, if any. */
  function BlockOf(k: Key, entry: Option<Json>, mimeTypes: Option<Json>): seq<Verdict>
  {
    match entry
    case Some(p) => PluginSuite(k, p, mimeTypes)
    case None => []
  }

  /** Among blocks with distinct keys, selecting plugin `k` yields exactly the
      block of the entry for `k`, or nothing when there is none. */
  lemma {:induction false} PluginSlice(plugins: seq<(Key, Json)>, mimeTypes: Option<Json>, k: Key)
    requires forall i, j :: 0 <= i < j < |plugins| ==> plugins[i].0 != plugins[j].0
    ensures InPlugin(PluginSuites(plugins, mimeTypes), k) == BlockOf(k, EntryFor(plugins, k), mimeTypes)
  {
    if |plugins| > 0 {
      var first := PluginSuite(plugins[0].0, plugins[0].1, mimeTypes);
      var tail := plugins[1..];
      var rest := PluginSuites(tail, mimeTypes);
      assert PluginSuites(plugins, mimeTypes) == first + rest;
      InPluginAppend(first, rest, k);
      if plugins[0].0 == k {
        assert EntryFor(plugins, k) == Some(plugins[0].1);
        InPluginAll(first, k);
        PluginSuitesScopes(tail, mimeTypes);
        forall i | 0 <= i < |rest| ensures rest[i].scope.Plugin() != Some(k) {
          var j :| 0 <= j < |tail| && rest[i].scope.Plugin() == Some(tail[j].0);
          assert tail[j] == plugins[j + 1];
        }
        InPluginNone(rest, k);
      } else {
        assert EntryFor(plugins, k) == EntryFor(tail, k);
        InPluginNone(first, k);
        assert InPlugin(first, k) + InPlugin(rest, k) == InPlugin(rest, k);
        PluginSlice(tail, mimeTypes, k);
      }
    }
  }

  /** The verdicts reported inside plugin `k`'s block are exactly that
      plugin's suite, computed from its own entry and the top-level
      `mime_types` alone; a plugin that is not there reports nothing. */
  lemma PluginBlock(doc: Json, k: Key)
    ensures var mimeTypes := Prop(Some(doc), "mime_types");
            var plugins := Prop(Some(doc), "plugins");
            InPlugin(Validate(doc), k) == BlockOf(k, EntryFor(ForIn(plugins), k), mimeTypes)
  {
    var mimeTypes := Prop(Some(doc), "mime_types");
    var plugins := Prop(Some(doc), "plugins");
    InPluginAppend(Prelude(doc), PluginSuites(ForIn(plugins), mimeTypes), k);
    InPluginNone(Prelude(doc), k);
    ForInVisitsChildren(plugins);
    PluginSlice(ForIn(plugins), mimeTypes, k);
  }

  /** Independence: two documents with the same `mime_types` and the same
      entry for plugin `k` report the same verdicts, in the same order,
      inside `k`'s block, whatever their other plugins are. */
  lemma PluginIndependence(doc1: Json, doc2: Json, k: Key)
    requires Prop(Some(doc1), "mime_types") == Prop(Some(doc2), "mime_types")
    requires EntryFor(ForIn(Prop(Some(doc1), "plugins")), k) == EntryFor(ForIn(Prop(Some(doc2), "plugins")), k)
    ensures InPlugin(Validate(doc1), k) == InPlugin(Validate(doc2), k)
  {
    PluginBlock(doc1, k);
    PluginBlock(doc2, k);
  }

  /** Over a `plugins` object, the entry for a name is the value
      `JSON.parse` kept for it. */
  lemma EntryForObject(ms: seq<(string, Json)>, name: string)
    ensures EntryFor(ForIn(Some(JObject(ms))), Name(name)) == Lookup(ms, name)
  {
    var entries := ForIn(Some(JObject(ms)));
    ForInObject(ms);
    LookupLast(ms, name);
    var r := EntryFor(entries, Name(name));
    if r.Some? {
      var i :| 0 <= i < |entries| && entries[i] == (Name(name), r.value);
      assert Lookup(ms, name) == Some(entries[i].1);
    }
  }

  /** Changing, adding or removing other plugins of a `plugins` object
      leaves the verdicts of plugin `name` unchanged. */
  lemma OtherPluginsDoNotMatter(doc1: Json, doc2: Json, name: string)
    requires Prop(Some(doc1), "mime_types") == Prop(Some(doc2), "mime_types")
    requires IsObject(Prop(Some(doc1), "plugins")) && IsObject(Prop(Some(doc2), "plugins"))
    requires Lookup(Prop(Some(doc1), "plugins").value.members, name)
             == Lookup(Prop(Some(doc2), "plugins").value.members, name)
    ensures InPlugin(Validate(doc1), Name(name)) == InPlugin(Validate(doc2), Name(name))
  {
    EntryForObject(Prop(Some(doc1), "plugins").value.members, name);
    EntryForObject(Prop(Some(doc2), "plugins").value.members, name);
    PluginIndependence(doc1, doc2, Name(name));
  }

  /** A plugin-level `it` is reported once in its plugin's block: the OS
      blocks that follow carry none of the plugin-level rules. */
  lemma PluginCheckOnce(name: Key, plugin: Json, mimeTypes: Option<Json>, n: nat)
    requires n < 7
    ensures var checks := PluginChecks(name, plugin, mimeTypes);
            WithRule(PluginSuite(name, plugin, mimeTypes), checks[n].rule) == [checks[n]]
  {
    var checks := PluginChecks(name, plugin, mimeTypes);
    var groups := OsSuites(name, ForIn(Prop(Some(plugin), "versions")));
    var rule := checks[n].rule;
    WithRuleAppend(checks, groups, rule);
    WithRuleNone(groups, rule);
    WithRuleUnique(checks, rule, n);
  }

  /** A plugin's block holds exactly one verdict of each plugin-level rule,
      at the plugin's own scope: the object check, the three string fields,
      the `versions` object (which may be empty), the referential check and
      the regex list. */
  lemma PluginRules(name: Key, plugin: Json, mimeTypes: Option<Json>)
    ensures var p := Some(plugin);
            var vs := PluginSuite(name, plugin, mimeTypes);
            var s := PluginScope(name);
            && WithRule(vs, PluginObject) == [Verdict(s, PluginObject, plugin.JObject?)]
            && WithRule(vs, DisplayName) == [Verdict(s, DisplayName, IsString(Prop(p, "display_name")))]
            && WithRule(vs, Description) == [Verdict(s, Description, IsString(Prop(p, "description")))]
            && WithRule(vs, HasVersions) == [Verdict(s, HasVersions, IsObject(Prop(p, "versions")))]
            && WithRule(vs, KnownMimes) == [Verdict(s, KnownMimes, KnownMimesOk(Prop(p, "mimes"), mimeTypes))]
            && WithRule(vs, Url) == [Verdict(s, Url, IsString(Prop(p, "url")))]
            && WithRule(vs, Regex) == [Verdict(s, Regex, RegexOk(Prop(p, "regex")))]
  {
    PluginCheckOnce(name, plugin, mimeTypes, 0);
    PluginCheckOnce(name, plugin, mimeTypes, 1);
    PluginCheckOnce(name, plugin, mimeTypes, 2);
    PluginCheckOnce(name, plugin, mimeTypes, 3);
    PluginCheckOnce(name, plugin, mimeTypes, 4);
    PluginCheckOnce(name, plugin, mimeTypes, 5);
    PluginCheckOnce(name, plugin, mimeTypes, 6);
  }

  /** The referential check: `mimes` is an array each of whose elements is
      a string, number, boolean or null equal to some element of the
      top-level `mime_types` array (an array or object element equals
      nothing, being a fresh object); an empty `mimes` passes whatever
      `mime_types` is. */
  lemma KnownMimesMeaning(mimes: Option<Json>, mimeTypes: Option<Json>)
    ensures KnownMimesOk(mimes, mimeTypes)
            <==> && IsArray(mimes)
                 && (|mimes.value.elements| > 0 ==> IsArray(mimeTypes))
                 && forall m :: m in mimes.value.elements ==>
                      !m.JArray? && !m.JObject? && m in mimeTypes.value.elements
  {
    if KnownMimesOk(mimes, mimeTypes) {
      forall m | m in mimes.value.elements
        ensures !m.JArray? && !m.JObject? && m in mimeTypes.value.elements
      {
        var i :| 0 <= i < |mimes.value.elements| && mimes.value.elements[i] == m;
        assert OneOf(Some(m), mimeTypes);
      }
      if |mimes.value.elements| > 0 {
        assert OneOf(Some(mimes.value.elements[0]), mimeTypes);
      }
    }
    if && IsArray(mimes)
       && (|mimes.value.elements| > 0 ==> IsArray(mimeTypes))
       && forall m :: m in mimes.value.elements ==> !m.JArray? && !m.JObject? && m in mimeTypes.value.elements
    {
      forall i | 0 <= i < |mimes.value.elements| ensures OneOf(Some(mimes.value.elements[i]), mimeTypes) {
        var m := mimes.value.elements[i];
        assert m in mimes.value.elements;
        var j :| 0 <= j < |mimeTypes.value.elements| && mimeTypes.value.elements[j] == m;
        assert StrictEquals(m, mimeTypes.value.elements[j]);
      }
    }
  }

  /** However many entries of a plugin's `mimes` are unknown, the run
      reports exactly one referential verdict inside that plugin, failing
      when any entry is unknown. */
  lemma KnownMimesOncePerPlugin(doc: Json, k: Key, plugin: Json)
    requires EntryFor(ForIn(Prop(Some(doc), "plugins")), k) == Some(plugin)
    ensures WithRule(InPlugin(Validate(doc), k), KnownMimes)
            == [Verdict(PluginScope(k), KnownMimes,
                        KnownMimesOk(Prop(Some(plugin), "mimes"), Prop(Some(doc), "mime_types")))]
  {
    PluginBlock(doc, k);
    PluginRules(k, plugin, Prop(Some(doc), "mime_types"));
  }

  /** The plugin blocks carry none of the top-level rules. */
  lemma PluginSuitesWithoutTopLevelRules(plugins: seq<(Key, Json)>, mimeTypes: Option<Json>, rule: Rule)
    requires rule in {MimeTypesArray, PluginsObject, MimeTypesNonEmpty, MimeTypeValid, PluginsNonEmpty}
    ensures WithRule(PluginSuites(plugins, mimeTypes), rule) == []
  {
    var vs := PluginSuites(plugins, mimeTypes);
    forall i | 0 <= i < |vs| ensures vs[i].rule != rule {
      assert Placed(vs[i]) && vs[i].scope.Plugin().Some?;
    }
    WithRuleNone(vs, rule);
  }

  /** The verdicts of a top-level rule are those of the prelude. */
  lemma TopLevelRuleInPrelude(doc: Json, rule: Rule)
    requires rule in {MimeTypesArray, PluginsObject, MimeTypesNonEmpty, MimeTypeValid, PluginsNonEmpty}
    ensures WithRule(Validate(doc), rule) == WithRule(Prelude(doc), rule)
  {
    var plugins := Prop(Some(doc), "plugins");
    var mimeTypes := Prop(Some(doc), "mime_types");
    WithRuleAppend(Prelude(doc), PluginSuites(ForIn(plugins), mimeTypes), rule);
    PluginSuitesWithoutTopLevelRules(ForIn(plugins), mimeTypes, rule);
  }

  /** The prelude, cut into its three parts. */
  lemma PreludeParts(doc: Json, rule: Rule)
    ensures var mimeTypes := Prop(Some(doc), "mime_types");
            WithRule(Prelude(doc), rule)
            == WithRule(TopLevelChecks(doc), rule)
               + WithRule(MimeTypeChecks(Elements(mimeTypes)), rule)
               + WithRule(PluginsNonEmptyCheck(doc), rule)
  {
    var mimeTypes := Prop(Some(doc), "mime_types");
    var head := TopLevelChecks(doc);
    var checks := MimeTypeChecks(Elements(mimeTypes));
    var last := PluginsNonEmptyCheck(doc);
    assert Prelude(doc) == head + checks + last;
    WithRuleAppend(head + checks, last, rule);
    WithRuleAppend(head, checks, rule);
  }

  /** The MIME type verdicts of a run are the checks of the `mime_types`
      block. */
  lemma MimeTypeVerdictsAreChecks(doc: Json)
    ensures WithRule(Validate(doc), MimeTypeValid) == MimeTypeChecks(Elements(Prop(Some(doc), "mime_types")))
  {
    var mimeTypes := Prop(Some(doc), "mime_types");
    var head := TopLevelChecks(doc);
    var last := PluginsNonEmptyCheck(doc);
    var checks := MimeTypeChecks(Elements(mimeTypes));
    TopLevelRuleInPrelude(doc, MimeTypeValid);
    PreludeParts(doc, MimeTypeValid);
    WithRuleNone(head, MimeTypeValid);
    WithRuleNone(last, MimeTypeValid);
    WithRuleAll(checks, MimeTypeValid);
  }

  /** Exactly one MIME type verdict is reported per element of `mime_types`,
      in order, and the i-th fails exactly when the element does not include
      "/"; for a string element, when it lacks the '/' character. */
  lemma MimeTypeVerdicts(doc: Json)
    requires IsArray(Prop(Some(doc), "mime_types"))
    ensures var es := Prop(Some(doc), "mime_types").value.elements;
            var vs := WithRule(Validate(doc), MimeTypeValid);
            && |vs| == |es|
            && forall i :: 0 <= i < |vs| ==>
                 && vs[i].scope == MimeTypeAt(i)
                 && (vs[i].pass <==> Includes(es[i], "/"))
                 && (es[i].JString? ==> (vs[i].pass <==> '/' in es[i].s))
  {
    var es := Prop(Some(doc), "mime_types").value.elements;
    MimeTypeVerdictsAreChecks(doc);
    forall i | 0 <= i < |es| && es[i].JString? ensures Includes(es[i], "/") <==> '/' in es[i].s {
      IncludesCharacter(es[i].s, '/');
    }
  }

  /** A string `mime_types` fails its array check, and `for...of` then
      declares one MIME type check per character, in order, which passes
      exactly when the character is '/'. */
  lemma StringMimeTypeVerdicts(doc: Json, s: string)
    requires Prop(Some(doc), "mime_types") == Some(JString(s))
    ensures WithRule(Validate(doc), MimeTypesArray) == [Verdict(Document, MimeTypesArray, false)]
    ensures var vs := WithRule(Validate(doc), MimeTypeValid);
            && |vs| == |s|
            && forall i :: 0 <= i < |vs| ==>
                 && vs[i].scope == MimeTypeAt(i)
                 && (vs[i].pass <==> s[i] == '/')
  {
    var mimeTypes := Prop(Some(doc), "mime_types");
    var head := TopLevelChecks(doc);
    var last := PluginsNonEmptyCheck(doc);
    var es := Elements(mimeTypes);
    var checks := MimeTypeChecks(es);
    TopLevelRuleInPrelude(doc, MimeTypesArray);
    PreludeParts(doc, MimeTypesArray);
    WithRuleUnique(head, MimeTypesArray, 0);
    WithRuleNone(checks, MimeTypesArray);
    WithRuleNone(last, MimeTypesArray);
    MimeTypeVerdictsAreChecks(doc);
    forall i | 0 <= i < |s| ensures Includes(es[i], "/") <==> s[i] == '/' {
      IncludesCharacter([s[i]], '/');
    }
  }

  /** The non-empty check on an array `mime_types` passes exactly when it has
      an element. */
  lemma MimeTypesNonEmptyVerdict(doc: Json)
    requires IsArray(Prop(Some(doc), "mime_types"))
    ensures WithRule(Validate(doc), MimeTypesNonEmpty)
            == [Verdict(Document, MimeTypesNonEmpty, |Prop(Some(doc), "mime_types").value.elements| > 0)]
  {
    var mimeTypes := Prop(Some(doc), "mime_types");
    var head := TopLevelChecks(doc);
    var last := PluginsNonEmptyCheck(doc);
    var checks := MimeTypeChecks(Elements(mimeTypes));
    TopLevelRuleInPrelude(doc, MimeTypesNonEmpty);
    PreludeParts(doc, MimeTypesNonEmpty);
    WithRuleUnique(head, MimeTypesNonEmpty, 2);
    WithRuleNone(checks, MimeTypesNonEmpty);
    WithRuleNone(last, MimeTypesNonEmpty);
  }

  /** The non-empty check on an object `plugins` passes exactly when it has
      a member. */
  lemma PluginsNonEmptyVerdict(doc: Json)
    requires IsObject(Prop(Some(doc), "plugins"))
    ensures WithRule(Validate(doc), PluginsNonEmpty)
            == [Verdict(Document, PluginsNonEmpty, |Prop(Some(doc), "plugins").value.members| > 0)]
  {
    var mimeTypes := Prop(Some(doc), "mime_types");
    var head := TopLevelChecks(doc);
    var last := PluginsNonEmptyCheck(doc);
    var checks := MimeTypeChecks(Elements(mimeTypes));
    TopLevelRuleInPrelude(doc, PluginsNonEmpty);
    PreludeParts(doc, PluginsNonEmpty);
    WithRuleNone(head, PluginsNonEmpty);
    WithRuleNone(checks, PluginsNonEmpty);
    WithRuleAll(last, PluginsNonEmpty);
  }

  /** An empty `versions` object passes its check and adds no OS block: the
      plugin's block is its own seven checks. */
  lemma EmptyVersions(name: Key, plugin: Json, mimeTypes: Option<Json>)
    requires Prop(Some(plugin), "versions") == Some(JObject([]))
    ensures PluginSuite(name, plugin, mimeTypes) == PluginChecks(name, plugin, mimeTypes)
    ensures VersionsOk(Prop(Some(plugin), "versions"))
  {
    assert Keys([]) == [];
    assert ForIn(Prop(Some(plugin), "versions")) == [];
  }

  /** "textplain" fails on its own: of three MIME types, only the verdict of
      the one without a slash fails. */
  lemma TextPlainFailsAlone(doc: Json)
    requires Prop(Some(doc), "mime_types")
             == Some(JArray([JString("text/plain"), JString("textplain"), JString("application/pdf")]))
    ensures var vs := WithRule(Validate(doc), MimeTypeValid);
            && |vs| == 3
            && vs[0].pass && !vs[1].pass && vs[2].pass
            && vs[1].scope == MimeTypeAt(1)
  {
    var vs := WithRule(Validate(doc), MimeTypeValid);
    MimeTypeVerdictsAreChecks(doc);
    IncludesCharacter("text/plain", '/');
    IncludesCharacter("textplain", '/');
    IncludesCharacter("application/pdf", '/');
    assert "text/plain"[4] == '/';
    assert "application/pdf"[11] == '/';
  }
}
