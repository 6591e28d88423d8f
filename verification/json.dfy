/** The parsed catalog document, as the JavaScript engine sees it after
    `JSON.parse`: values, property access and `for...in` iteration. */
module Json {

  datatype Option<+T> = None | Some(value: T)

  /** A JSON value. An object keeps its members in document order, duplicates
      included; `Keys` and `Lookup` give the view `JSON.parse` builds from them. */
  datatype Json =
    | JNull
    | JBool(b: bool)
    | JNumber(n: real)
    | JString(s: string)
    | JArray(elements: seq<Json>)
    | JObject(members: seq<(string, Json)>)

  /** A key produced by `for...in`: the indices of an array, the member names
      of an object. */
  datatype Key = Index(i: nat) | Name(name: string)

  predicate HasKey(ms: seq<(string, Json)>, k: string)
  {
    exists i :: 0 <= i < |ms| && ms[i].0 == k
  }

  /** The own keys of a parsed object, in enumeration order: every distinct
      member name once, at the place of its first occurrence. */
  function Keys(ms: seq<(string, Json)>): (ks: seq<string>)
    ensures forall i, j :: 0 <= i < j < |ks| ==> ks[i] != ks[j]
    ensures forall k :: k in ks <==> HasKey(ms, k)
    ensures |ks| == 0 <==> |ms| == 0
  {
    if |ms| == 0 then []
    else
      var init := ms[..|ms| - 1];
      var ks' := Keys(init);
      assert forall k :: HasKey(ms, k) <==> HasKey(init, k) || k == ms[|ms| - 1].0 by {
        forall k | HasKey(ms, k) ensures HasKey(init, k) || k == ms[|ms| - 1].0 {
          var i :| 0 <= i < |ms| && ms[i].0 == k;
          if i < |ms| - 1 { assert init[i] == ms[i]; }
        }
        forall k | HasKey(init, k) ensures HasKey(ms, k) {
          var i :| 0 <= i < |init| && init[i].0 == k;
          assert ms[i] == init[i];
        }
      }
      if ms[|ms| - 1].0 in ks' then ks' else ks' + [ms[|ms| - 1].0]
  }

  /** The value of a member: when a name occurs more than once, `JSON.parse`
      keeps the last one. */
  function Lookup(ms: seq<(string, Json)>, k: string): (r: Option<Json>)
  {
    if |ms| == 0 then None
    else if ms[|ms| - 1].0 == k then Some(ms[|ms| - 1].1)
    else Lookup(ms[..|ms| - 1], k)
  }

  /** A name has a value exactly when some member carries it, and the value
      is that of its last member. */
  lemma {:induction false} LookupLast(ms: seq<(string, Json)>, k: string)
    ensures Lookup(ms, k).None? <==> !HasKey(ms, k)
    ensures Lookup(ms, k).Some? ==>
              exists i :: 0 <= i < |ms| && ms[i] == (k, Lookup(ms, k).value)
                          && forall j :: i < j < |ms| ==> ms[j].0 != k
  {
    if |ms| > 0 && ms[|ms| - 1].0 != k {
      var init := ms[..|ms| - 1];
      LookupLast(init, k);
      assert HasKey(ms, k) ==> HasKey(init, k) by {
        if HasKey(ms, k) {
          var i :| 0 <= i < |ms| && ms[i].0 == k;
          assert init[i] == ms[i];
        }
      }
      assert HasKey(init, k) ==> HasKey(ms, k) by {
        if HasKey(init, k) {
          var i :| 0 <= i < |init| && init[i].0 == k;
          assert ms[i] == init[i];
        }
      }
      if Lookup(init, k).Some? {
        var r := Lookup(init, k);
        var i :| 0 <= i < |init| && init[i] == (k, r.value)
                 && forall j :: i < j < |init| ==> init[j].0 != k;
        assert ms[i] == init[i];
        assert forall j :: i < j < |ms| ==> ms[j].0 != k by {
          forall j | i < j < |ms| ensures ms[j].0 != k {
            if j < |ms| - 1 { assert ms[j] == init[j]; }
          }
        }
      }
    } else if |ms| > 0 {
      assert HasKey(ms, k) by { assert ms[|ms| - 1].0 == k; }
    }
  }

  /** A name carried by one member only looks up that member's value. */
  lemma LookupUnique(ms: seq<(string, Json)>, i: nat)
    requires i < |ms|
    requires forall j :: 0 <= j < |ms| && j != i ==> ms[j].0 != ms[i].0
    ensures Lookup(ms, ms[i].0) == Some(ms[i].1)
  {
    LookupLast(ms, ms[i].0);
  }

  /** The value of a member known to be present. */
  function Member(ms: seq<(string, Json)>, k: string): Json
    requires HasKey(ms, k)
  {
    LookupLast(ms, k);
    Lookup(ms, k).value
  }

  /** Property access `v.name`. Only objects have the names the validator
      reads (none of them is inherited from a prototype), so any other value,
      and `undefined` itself, yields `undefined` (`None`). */
  function Prop(v: Option<Json>, name: string): Option<Json>
  {
    if v.Some? && v.value.JObject? then Lookup(v.value.members, name) else None
  }

  /** `x` is one of the values `for...in` over `v` reaches: an element of an
      array, or the value of one of an object's keys. */
  ghost predicate IsChild(x: Json, v: Option<Json>)
  {
    && v.Some?
    && ((v.value.JArray? && x in v.value.elements)
        || (v.value.JObject? && exists k :: Lookup(v.value.members, k) == Some(x)))
  }

  /** The (key, value) pairs a `for (k in v)` loop visits, reading `v[k]` in
      its body. Other shapes are taken to yield nothing. */
  function ForIn(v: Option<Json>): seq<(Key, Json)>
  {
    if v.Some? && v.value.JArray? then
      var es := v.value.elements;
      seq(|es|, i requires 0 <= i < |es| => (Index(i), es[i]))
    else if v.Some? && v.value.JObject? then
      var ms := v.value.members;
      var ks := Keys(ms);
      seq(|ks|, i requires 0 <= i < |ks| => (Name(ks[i]), Member(ms, ks[i])))
    else []
  }

  /** `for...in` visits each key once, and the values it reads are exactly
      the children of `v`. */
  lemma ForInVisitsChildren(v: Option<Json>)
    ensures var entries := ForIn(v);
            && (forall i, j :: 0 <= i < j < |entries| ==> entries[i].0 != entries[j].0)
            && forall x :: (exists i :: 0 <= i < |entries| && entries[i].1 == x) <==> IsChild(x, v)
  {
    var entries := ForIn(v);
    if v.Some? && v.value.JArray? {
      var es := v.value.elements;
      forall x | x in es ensures exists i :: 0 <= i < |entries| && entries[i].1 == x {
        var i :| 0 <= i < |es| && es[i] == x;
        assert entries[i].1 == x;
      }
    } else if v.Some? && v.value.JObject? {
      var ms := v.value.members;
      var ks := Keys(ms);
      forall x | exists k :: Lookup(ms, k) == Some(x)
        ensures exists i :: 0 <= i < |entries| && entries[i].1 == x
      {
        var k :| Lookup(ms, k) == Some(x);
        LookupLast(ms, k);
        assert k in ks;
        var i :| 0 <= i < |ks| && ks[i] == k;
        assert entries[i].1 == x;
      }
      forall i | 0 <= i < |entries| ensures Lookup(ms, ks[i]) == Some(entries[i].1) {
        LookupLast(ms, ks[i]);
      }
    }
  }

  /** Over an object, `for...in` visits every member name, each with the
      value `JSON.parse` kept for it. */
  lemma ForInObject(ms: seq<(string, Json)>)
    ensures var entries := ForIn(Some(JObject(ms)));
            && (forall i :: 0 <= i < |entries| ==>
                  entries[i].0.Name? && HasKey(ms, entries[i].0.name)
                  && Lookup(ms, entries[i].0.name) == Some(entries[i].1))
            && forall k :: HasKey(ms, k) ==> exists i :: 0 <= i < |entries| && entries[i].0 == Name(k)
  {
    var entries := ForIn(Some(JObject(ms)));
    var ks := Keys(ms);
    forall i | 0 <= i < |entries|
      ensures HasKey(ms, entries[i].0.name) && Lookup(ms, entries[i].0.name) == Some(entries[i].1)
    {
      LookupLast(ms, ks[i]);
    }
    forall k | HasKey(ms, k) ensures exists i :: 0 <= i < |entries| && entries[i].0 == Name(k) {
      var i :| 0 <= i < |ks| && ks[i] == k;
      assert entries[i].0 == Name(k);
    }
  }
}
