/** JSON documents as the dashboard sees them after cJSON has parsed a
    file: a tree of values whose objects keep their members in file order,
    duplicates included. Parsing itself is not part of this model. */
module Json {
  import opened Wrappers
  import opened Text
  import opened Constants

  datatype Json =
    | JNull
    | JBool(b: bool)
    | JNumber(n: real)
    | JString(s: string)
    | JArray(elems: seq<Json>)
    | JObject(members: seq<Member>)

  /** One object member: its key (cJSON's `item->string`) and value. */
  datatype Member = Member(key: string, value: Json)

  const INT_MAX: int := 0x7FFF_FFFF
  const INT_MIN: int := -0x8000_0000

  /** The members cJSON_ArrayForEach visits with a key: those of an object.
      A scalar has no children; arrays are excluded by `KeyedChildren`. */
  function Members(j: Json): seq<Member>
  {
    if j.JObject? then j.members else []
  }

  /** Iterating over `j` and reading each child's key is defined: `j` is
      not an array with elements (whose children have a NULL key). */
  predicate KeyedChildren(j: Json)
  {
    !j.JArray? || |j.elems| == 0
  }

  /**
   * cJSON_GetObjectItem: the first member whose key equals `key` up to
   * ASCII case; nothing for an absent key or a value that is not an object.
   */
  function GetObjectItem(j: Json, key: string): (r: Option<Json>)
    ensures r.Some? <==> j.JObject? && exists i :: 0 <= i < |j.members| && EqualIgnoringCase(j.members[i].key, key)
  {
    if j.JObject? then Lookup(j.members, key) else None
  }

  function Lookup(ms: seq<Member>, key: string): (r: Option<Json>)
    ensures r.Some? <==> exists i :: 0 <= i < |ms| && EqualIgnoringCase(ms[i].key, key)
  {
    if |ms| == 0 then None
    else if EqualIgnoringCase(ms[0].key, key) then Some(ms[0].value)
    else
      assert forall i :: 1 <= i < |ms| ==> ms[1..][i - 1] == ms[i];
      Lookup(ms[1..], key)
  }

  /** The first member wins: a member matching `key` ahead of all other matches is the one found. */
  lemma {:induction false} LookupFirst(ms: seq<Member>, key: string, i: nat)
    requires i < |ms| && EqualIgnoringCase(ms[i].key, key)
    requires forall k :: 0 <= k < i ==> !EqualIgnoringCase(ms[k].key, key)
    ensures Lookup(ms, key) == Some(ms[i].value)
  {
    if i > 0 {
      assert forall k :: 0 <= k < i - 1 ==> ms[1..][k] == ms[k + 1];
      LookupFirst(ms[1..], key, i - 1);
    }
  }

  /**
   * cJSON's `valueint` of a number: the value truncated toward zero,
   * saturated at INT_MAX and INT_MIN.
   */
  function ValueInt(n: real): (r: int)
    ensures INT_MIN <= r <= INT_MAX
    ensures INT_MIN as real < n < INT_MAX as real ==> r == Trunc(n)
    ensures n >= INT_MAX as real ==> r == INT_MAX
    ensures n <= INT_MIN as real ==> r == INT_MIN
  {
    if n >= INT_MAX as real then INT_MAX
    else if n <= INT_MIN as real then INT_MIN
    else TruncInRange(n); Trunc(n)
  }

  lemma TruncInRange(n: real)
    requires INT_MIN as real < n < INT_MAX as real
    ensures INT_MIN <= Trunc(n) <= INT_MAX
  {
    if n < 0.0 {
      assert (-n).Floor as real <= -n;
    }
  }

  /** An integral value inside the int range reads back unchanged through `valueint`. */
  lemma ValueIntExact(k: int)
    requires INT_MIN <= k <= INT_MAX
    ensures ValueInt(k as real) == k
  {
    if INT_MIN < k < INT_MAX {
      if k < 0 {
        assert (-(k as real)).Floor == -k;
      }
    }
  }

  predicate IsNumber(j: Json) { j.JNumber? }
  predicate IsString(j: Json) { j.JString? }
  predicate IsBool(j: Json) { j.JBool? }
}
