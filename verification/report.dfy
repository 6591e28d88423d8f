/** What one run of the suite reports: one verdict per `it`, named by the
    rule it checks and the place in the document it checks it at. */
module Report {
  import opened Json

  /** The two lists of version records under an OS key. */
  datatype Mode = Latest | Vulnerable

  /** One `it` block of the suite. */
  datatype Rule =
    | MimeTypesArray          // a mime_types array must exist
    | PluginsObject           // a plugins object must exist
    | MimeTypesNonEmpty       // the top-level mime_types array must not be empty
    | MimeTypeValid           // <mime> should be a valid mime_type
    | PluginsNonEmpty         // the top-level plugins object must not be empty
    | PluginObject            // must be an object
    | DisplayName             // must have a display name
    | Description             // must have a description
    | HasVersions             // must have some version(s)
    | KnownMimes              // must check for known mime types
    | Url                     // must provide a url
    | Regex                   // must provide a regex
    | KnownOs                 // must be a known version
    | LatestArray             // must have a latest version
    | ValidStatus             // must have a valid status
    | DescribesVulnerability  // must describe the vulnerability
    | AffectedVersion         // must define an affected version
    | DetectionType           // must define a detection_type
    | Platform                // must define a platform

  /** Where in the document a rule was checked: the nesting of `describe`
      blocks, with a record named by its for-in key in the latest or the
      vulnerable list of its OS key. */
  datatype Scope =
    | Document
    | MimeTypeAt(index: nat)
    | PluginScope(plugin: Key)
    | OsScope(plugin: Key, os: Key)
    | RecordScope(plugin: Key, os: Key, mode: Mode, record: Key)
  {
    /** The plugin whose `describe` block encloses this scope, if any. */
    function Plugin(): Option<Key>
    {
      match this
      case PluginScope(p) => Some(p)
      case OsScope(p, _) => Some(p)
      case RecordScope(p, _, _, _) => Some(p)
      case _ => None
    }
  }

  datatype Verdict = Verdict(scope: Scope, rule: Rule, pass: bool)

  /** A rule is reported at the level of the document its `it` block sits
      in: the two existence and two emptiness checks at the top, a MIME type
      check at its element, the plugin checks in a plugin, the OS-key checks
      in an OS group and the record checks in a record. */
  predicate Placed(v: Verdict)
  {
    match v.rule
    case MimeTypesArray => v.scope.Document?
    case PluginsObject => v.scope.Document?
    case MimeTypesNonEmpty => v.scope.Document?
    case PluginsNonEmpty => v.scope.Document?
    case MimeTypeValid => v.scope.MimeTypeAt?
    case KnownOs => v.scope.OsScope?
    case LatestArray => v.scope.OsScope?
    case ValidStatus => v.scope.RecordScope?
    case DescribesVulnerability => v.scope.RecordScope?
    case AffectedVersion => v.scope.RecordScope?
    case DetectionType => v.scope.RecordScope?
    case Platform => v.scope.RecordScope?
    case _ => v.scope.PluginScope?
  }

  /** The run is green. */
  predicate AllPass(vs: seq<Verdict>)
  {
    forall i :: 0 <= i < |vs| ==> vs[i].pass
  }

  lemma AllPassAppend(a: seq<Verdict>, b: seq<Verdict>)
    ensures AllPass(a + b) <==> AllPass(a) && AllPass(b)
  {
    if AllPass(a) && AllPass(b) {
      forall i | 0 <= i < |a + b| ensures (a + b)[i].pass {
        if i >= |a| { assert (a + b)[i] == b[i - |a|]; }
      }
    }
    if AllPass(a + b) {
      forall i | 0 <= i < |a| ensures a[i].pass {
        assert (a + b)[i] == a[i];
      }
      forall i | 0 <= i < |b| ensures b[i].pass {
        assert (a + b)[|a| + i] == b[i];
      }
    }
  }

  /** The verdicts reported inside the `describe` block of plugin `k`, in
      report order. */
  function InPlugin(vs: seq<Verdict>, k: Key): seq<Verdict>
  {
    if |vs| == 0 then []
    else if vs[0].scope.Plugin() == Some(k) then [vs[0]] + InPlugin(vs[1..], k)
    else InPlugin(vs[1..], k)
  }

  lemma {:induction false} InPluginAppend(a: seq<Verdict>, b: seq<Verdict>, k: Key)
    ensures InPlugin(a + b, k) == InPlugin(a, k) + InPlugin(b, k)
  {
    if |a| == 0 {
      assert a + b == b;
    } else {
      assert (a + b)[1..] == a[1..] + b;
      InPluginAppend(a[1..], b, k);
    }
  }

  /** The verdicts of one rule, in report order. */
  function WithRule(vs: seq<Verdict>, rule: Rule): seq<Verdict>
  {
    if |vs| == 0 then []
    else if vs[0].rule == rule then [vs[0]] + WithRule(vs[1..], rule)
    else WithRule(vs[1..], rule)
  }

  lemma {:induction false} WithRuleAppend(a: seq<Verdict>, b: seq<Verdict>, rule: Rule)
    ensures WithRule(a + b, rule) == WithRule(a, rule) + WithRule(b, rule)
  {
    if |a| == 0 {
      assert a + b == b;
    } else {
      assert (a + b)[1..] == a[1..] + b;
      WithRuleAppend(a[1..], b, rule);
    }
  }

  /** Selecting a plugin keeps a block that lies wholly inside it... */
  lemma {:induction false} InPluginAll(vs: seq<Verdict>, k: Key)
    requires forall i :: 0 <= i < |vs| ==> vs[i].scope.Plugin() == Some(k)
    ensures InPlugin(vs, k) == vs
  {
    if |vs| > 0 {
      InPluginAll(vs[1..], k);
    }
  }

  /** ... and drops one that lies wholly outside it. */
  lemma {:induction false} InPluginNone(vs: seq<Verdict>, k: Key)
    requires forall i :: 0 <= i < |vs| ==> vs[i].scope.Plugin() != Some(k)
    ensures InPlugin(vs, k) == []
  {
    if |vs| > 0 {
      InPluginNone(vs[1..], k);
    }
  }

  /** Selecting a rule keeps a block made only of that rule... */
  lemma {:induction false} WithRuleAll(vs: seq<Verdict>, rule: Rule)
    requires forall i :: 0 <= i < |vs| ==> vs[i].rule == rule
    ensures WithRule(vs, rule) == vs
  {
    if |vs| > 0 {
      WithRuleAll(vs[1..], rule);
    }
  }

  /** ... and drops a block without it. */
  lemma {:induction false} WithRuleNone(vs: seq<Verdict>, rule: Rule)
    requires forall i :: 0 <= i < |vs| ==> vs[i].rule != rule
    ensures WithRule(vs, rule) == []
  {
    if |vs| > 0 {
      WithRuleNone(vs[1..], rule);
    }
  }

  /** Selecting a rule that only one verdict carries yields that verdict. */
  lemma WithRuleUnique(vs: seq<Verdict>, rule: Rule, i: nat)
    requires i < |vs| && vs[i].rule == rule
    requires forall j :: 0 <= j < |vs| && j != i ==> vs[j].rule != rule
    ensures WithRule(vs, rule) == [vs[i]]
  {
    var before := vs[..i];
    var after := vs[i + 1..];
    assert vs == before + [vs[i]] + after;
    WithRuleAppend(before + [vs[i]], after, rule);
    WithRuleAppend(before, [vs[i]], rule);
    WithRuleNone(before, rule);
    WithRuleNone(after, rule);
    assert WithRule([vs[i]], rule) == [vs[i]] by {
      assert [vs[i]][1..] == [];
    }
  }
}
