/**
 * Decoded JSON documents, as Python's `json` module and JavaScript's `JSON.parse`
 * produce them.  Objects keep their member order.
 */
module Json {
  import opened Wrappers
  import opened Dicts

  datatype Json =
    | JNull
    | JBool(b: bool)
    | JNum(n: int)
    | JStr(s: string)
    | JArr(items: seq<Json>)
    | JObj(members: Dict<Json>)

  /** What a JSON decoder produces: no object repeats a key, at any depth. */
  predicate Decoded(v: Json)
  {
    match v
    case JObj(m) => UniqueKeys(m) && forall i | 0 <= i < |m| :: Decoded(m[i].1)
    case JArr(items) => forall i | 0 <= i < |items| :: Decoded(items[i])
    case _ => true
  }

  /** `value.get(name)` on an object; `None` for a missing member. */
  function Member(members: Dict<Json>, name: string): Option<Json>
  {
    Get(members, name)
  }

  /** A member's value inside the object that holds it is structurally smaller than the object. */
  lemma MemberSmaller(members: Dict<Json>, name: string)
    requires Get(members, name).Some?
    ensures Get(members, name).value < JObj(members)
  {
    var v := Get(members, name).value;
    assert (name, v) in members;
  }
}
