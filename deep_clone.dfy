/**
 * The structural copy of JSON-like values (src/utils/deepClone.ts).
 *
 * A value is null, a primitive, an array or an object whose own keys map to
 * values. `deepClone` returns primitives and null as they are, maps itself over
 * the elements of an array, and fills a fresh dictionary key by key for an
 * object.
 */
module DeepClone {

  /** A JSON-like value: no cycles, no prototypes, every key an own key. */
  datatype Json =
    | JNull
    | JBool(b: bool)
    | JNumber(n: int)
    | JString(s: string)
    | JArray(items: seq<Json>)
    | JObject(members: map<string, Json>)
  {
    /** Null and every non-object value: returned unchanged. */
    predicate IsPrimitive() {
      !JArray? && !JObject?
    }
  }

  /**
   * The recursive specification of `deepClone`: each recursive call is on an
   * element or a member value, a strict subterm of the input.
   */
  function Clone(obj: Json): (r: Json)
    ensures obj.IsPrimitive() ==> r == obj
    ensures obj.JArray? ==> r.JArray? && |r.items| == |obj.items|
    ensures obj.JObject? ==> r.JObject? && r.members.Keys == obj.members.Keys
    decreases obj
  {
    match obj
    case JArray(items) =>
      JArray(seq(|items|, i requires 0 <= i < |items| => Clone(items[i])))
    case JObject(members) =>
      JObject(map key | key in members :: Clone(members[key]))
    case _ => obj
  }

  /** Array branch: element i of the copy is the copy of element i. */
  lemma CloneArrayElements(items: seq<Json>, i: nat)
    requires i < |items|
    ensures Clone(JArray(items)).items[i] == Clone(items[i])
  {
  }

  /** Object branch: the copy has exactly the own keys, each value copied. */
  lemma CloneObjectMembers(members: map<string, Json>)
    ensures Clone(JObject(members)).members.Keys == members.Keys
    ensures forall key :: key in members ==> Clone(JObject(members)).members[key] == Clone(members[key])
  {
  }

  /** On finite acyclic values the copy is structurally equal to the original. */
  lemma {:induction false} CloneIsIdentity(obj: Json)
    ensures Clone(obj) == obj
    decreases obj
  {
    match obj
    case JArray(items) =>
      forall i | 0 <= i < |items| ensures Clone(items[i]) == items[i] {
        CloneIsIdentity(items[i]);
      }
      assert Clone(obj).items == items;
    case JObject(members) =>
      forall key | key in members ensures Clone(members[key]) == members[key] {
        CloneIsIdentity(members[key]);
      }
      assert Clone(obj).members == members;
    case _ =>
  }

  /** Copying a copy gives the same value as copying once. */
  lemma CloneIdempotent(obj: Json)
    ensures Clone(Clone(obj)) == Clone(obj)
  {
    CloneIsIdentity(obj);
    CloneIsIdentity(Clone(obj));
  }

  /**
   * `deepClone` as written: an early return for primitives, a recursive
   * copy of each element of an array (the `map`), and a loop over the own
   * keys filling `result` for an object.
   */
  method DeepClone(obj: Json) returns (r: Json)
    ensures r == Clone(obj)
    ensures r == obj
    decreases obj
  {
    CloneIsIdentity(obj);
    if obj.IsPrimitive() {
      return obj;
    }
    if obj.JArray? {
      var items := obj.items;
      var copies: seq<Json> := [];
      while |copies| < |items|
        invariant |copies| <= |items|
        invariant forall i :: 0 <= i < |copies| ==> copies[i] == Clone(items[i])
      {
        var copy := DeepClone(items[|copies|]);
        copies := copies + [copy];
      }
      assert copies == Clone(obj).items;
      return JArray(copies);
    }
    var members := obj.members;
    var result: map<string, Json> := map[];
    var pending := members.Keys;
    while pending != {}
      invariant pending <= members.Keys
      invariant result.Keys == members.Keys - pending
      invariant forall key :: key in result ==> result[key] == Clone(members[key])
      decreases pending
    {
      var key :| key in pending;
      var copy := DeepClone(members[key]);
      result := result[key := copy];
      pending := pending - {key};
    }
    assert result == map key | key in members :: Clone(members[key]);
    r := JObject(result);
  }
}
