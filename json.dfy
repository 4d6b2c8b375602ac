/** The JSON values exchanged over the pipe, as Gson's `JsonElement` tree
    holds them. Serialisation to text and parsing are Gson's and are not
    modelled; an object keeps its members in insertion order, as Gson's
    `JsonObject` does. */
module Json {
  import opened Wrappers

  datatype Json =
    | JNull
    | JBool(b: bool)
    | JNumber(n: int)
    | JString(s: string)
    | JArray(elements: seq<Json>)
    | JObject(members: seq<(string, Json)>)

  /** The members of a `JsonObject`, in insertion order. */
  type Members = seq<(string, Json)>

  /** The member names, in order. */
  function Keys(ms: Members): (ks: seq<string>)
    ensures |ks| == |ms|
    decreases |ms|
  {
    if ms == [] then [] else [ms[0].0] + Keys(ms[1..])
  }

  /** `JsonObject.get(key)`: the value of the member named `key`, `None`
      where Java returns `null`. */
  function Get(ms: Members, key: string): (r: Option<Json>)
    ensures r.Some? <==> key in Keys(ms)
    ensures r.Some? ==> exists i :: 0 <= i < |ms| && ms[i] == (key, r.value)
    decreases |ms|
  {
    if ms == [] then None
    else if ms[0].0 == key then Some(ms[0].1)
    else
      var r := Get(ms[1..], key);
      assert r.Some? ==> exists i :: 0 <= i < |ms[1..]| && ms[1..][i] == (key, r.value);
      r
  }

  /** `JsonObject.add(key, value)` / `addProperty(key, value)`: replaces the
      value of an existing member in its place, or appends a new member. */
  function Put(ms: Members, key: string, value: Json): (r: Members)
    ensures |r| == |ms| || |r| == |ms| + 1
    decreases |ms|
  {
    if ms == [] then [(key, value)]
    else if ms[0].0 == key then [(key, value)] + ms[1..]
    else [ms[0]] + Put(ms[1..], key, value)
  }

  /** After `add`, the key maps to the new value. */
  lemma {:induction false} PutGet(ms: Members, key: string, value: Json)
    ensures Get(Put(ms, key, value), key) == Some(value)
    decreases |ms|
  {
    if ms != [] && ms[0].0 != key {
      var r := Put(ms, key, value);
      assert r[1..] == Put(ms[1..], key, value);
      PutGet(ms[1..], key, value);
    }
  }

  /** `add` leaves every other member's value as it was. */
  lemma {:induction false} PutGetOther(ms: Members, key: string, value: Json, other: string)
    requires other != key
    ensures Get(Put(ms, key, value), other) == Get(ms, other)
    decreases |ms|
  {
    if ms != [] {
      var r := Put(ms, key, value);
      assert r[1..] == if ms[0].0 == key then ms[1..] else Put(ms[1..], key, value);
      if ms[0].0 != key {
        PutGetOther(ms[1..], key, value, other);
      }
    }
  }

  /** `add` keeps the order of the existing members and appends a new key at
      the end. */
  lemma {:induction false} PutKeys(ms: Members, key: string, value: Json)
    ensures Keys(Put(ms, key, value)) == if key in Keys(ms) then Keys(ms) else Keys(ms) + [key]
    decreases |ms|
  {
    var r := Put(ms, key, value);
    if ms != [] {
      if ms[0].0 != key {
        assert r[1..] == Put(ms[1..], key, value);
        PutKeys(ms[1..], key, value);
      } else {
        assert r[1..] == ms[1..];
      }
    }
  }

  const DIGITS: string := "0123456789"

  /** `Long.toString` of a non-negative number: its decimal digits. */
  function NatToString(n: nat): (s: string)
    ensures |s| >= 1 && forall i :: 0 <= i < |s| ==> s[i] in DIGITS
    decreases n
  {
    if n < 10 then [DIGITS[n]] else NatToString(n / 10) + [DIGITS[n % 10]]
  }

  /** `Long.toString`: decimal digits, with a leading minus when negative. */
  function IntToString(n: int): (s: string)
    ensures |s| >= 1
  {
    if n < 0 then "-" + NatToString(-n) else NatToString(n)
  }

  /** `JsonElement.getAsString()`: a primitive's text, the text of the single
      element of a one-element array; `None` where Gson throws (`JsonNull`,
      an object, any other array). */
  function AsString(j: Json): (r: Option<string>)
    ensures j.JString? ==> r == Some(j.s)
    ensures j.JNull? || j.JObject? ==> r == None
  {
    match j
    case JNull => None
    case JBool(b) => Some(if b then "true" else "false")
    case JNumber(n) => Some(IntToString(n))
    case JString(s) => Some(s)
    case JArray(es) => if |es| == 1 then AsString(es[0]) else None
    case JObject(_) => None
  }

  /** A Gson `JsonObject`, which the client builds and then mutates in place. */
  class JsonObject {
    var members: Members

    constructor ()
      ensures members == []
    {
      members := [];
    }

    method AddProperty(property: string, value: Json)
      modifies this
      ensures members == Put(old(members), property, value)
    {
      members := Put(members, property, value);
    }
  }
}
