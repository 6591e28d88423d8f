/** The chai assertions the validator uses, over JavaScript values: a JSON
    value, or `undefined` (`None`) for a missing property. An assertion that
    throws inside an `it` fails that check, so "throws" reads as `false`. */
module Chai {
  import opened Json

  /** `expect(v).to.be.a('string')` */
  predicate IsString(v: Option<Json>)
  {
    v.Some? && v.value.JString?
  }

  /** `expect(v).to.be.an('array')` */
  predicate IsArray(v: Option<Json>)
  {
    v.Some? && v.value.JArray?
  }

  /** `expect(v).to.be.an('object')`: chai's type detection names arrays
      'array' and null 'null', so neither is an object. */
  predicate IsObject(v: Option<Json>)
  {
    v.Some? && v.value.JObject?
  }

  /** `expect(v).to.not.be.empty`: a string or an array has a non-zero
      length, an object has an own key; on any other value `.empty` throws. */
  predicate NotEmpty(v: Option<Json>)
  {
    && v.Some?
    && match v.value
       case JString(s) => |s| > 0
       case JArray(es) => |es| > 0
       case JObject(ms) => |Keys(ms)| > 0
       case _ => false
  }

  /** `s` occurs as a contiguous piece of `t`. */
  predicate IsSubstring(s: string, t: string)
  {
    exists i, j :: 0 <= i <= j <= |t| && t[i..j] == s
  }

  /** `expect(target).to.include(needle)` for a string needle: a substring
      of a string target, a strictly equal element of an array target; any
      other target makes chai throw. */
  predicate Includes(target: Json, needle: string)
  {
    match target
    case JString(t) => IsSubstring(needle, t)
    case JArray(es) => JString(needle) in es
    case _ => false
  }

  /** JavaScript `a === b` between two values of one parsed document.
      `JSON.parse` allocates a fresh object for every array and object, so
      those are never identical to anything else; primitives compare by
      value, numbers as the exact reals the model keeps. */
  predicate StrictEquals(a: Json, b: Json)
  {
    !a.JArray? && !a.JObject? && a == b
  }

  /** `expect(v).to.be.oneOf(list)`: chai first asserts that `list` is an
      array, then looks `v` up with strict equality. */
  predicate OneOf(v: Option<Json>, list: Option<Json>)
  {
    && v.Some?
    && IsArray(list)
    && exists i :: 0 <= i < |list.value.elements| && StrictEquals(v.value, list.value.elements[i])
  }

  /** `expect(v).to.equal(lit)` for a string literal. */
  predicate EqualsString(v: Option<Json>, lit: string)
  {
    v == Some(JString(lit))
  }

  /** The JSON array of string literals written in the source. */
  function Literals(lits: seq<string>): Json
  {
    JArray(seq(|lits|, i requires 0 <= i < |lits| => JString(lits[i])))
  }

  /** `expect(v).to.be.oneOf([lit, ...])` with a literal list of strings. */
  predicate OneOfStrings(v: Option<Json>, lits: seq<string>)
  {
    OneOf(v, Some(Literals(lits)))
  }

  /** Against a literal list, `oneOf` is plain membership of a string value. */
  lemma OneOfStringsIsMembership(v: Option<Json>, lits: seq<string>)
    ensures OneOfStrings(v, lits) <==> v.Some? && v.value.JString? && v.value.s in lits
  {
    var list := Literals(lits);
    if v.Some? && v.value.JString? && v.value.s in lits {
      var i :| 0 <= i < |lits| && lits[i] == v.value.s;
      assert StrictEquals(v.value, list.elements[i]);
    }
  }

  /** For a one-character needle, inclusion in a string is membership of
      that character. */
  lemma IncludesCharacter(t: string, c: char)
    ensures Includes(JString(t), [c]) <==> c in t
  {
    if c in t {
      var i :| 0 <= i < |t| && t[i] == c;
      assert t[i..i + 1] == [c];
    }
    if IsSubstring([c], t) {
      var i, j :| 0 <= i <= j <= |t| && t[i..j] == [c];
      assert t[i] == c;
    }
  }
}
