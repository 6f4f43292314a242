/** Python dictionaries as the run recorder uses them: a sequence of
    members with distinct keys, in insertion order (the order json.dump
    writes them). Assigning to a key that is present keeps its position;
    a new key goes at the end. */
module Dicts {
  import opened Wrappers
  import opened Json

  function Keys(d: seq<Member>): (ks: seq<string>)
    ensures |ks| == |d|
    ensures forall i :: 0 <= i < |d| ==> ks[i] == d[i].key
  {
    seq(|d|, i requires 0 <= i < |d| => d[i].key)
  }

  /** No key occurs twice. */
  predicate IsDict(d: seq<Member>) {
    forall i, j :: 0 <= i < j < |d| ==> d[i].key != d[j].key
  }

  /** `d.get(k)`: the value stored under `k`, if any. */
  function Get(d: seq<Member>, k: string): (r: Option<Json>)
    ensures r.Some? <==> k in Keys(d)
  {
    if |d| == 0 then None
    else if d[0].key == k then Some(d[0].value)
    else
      assert Keys(d) == [d[0].key] + Keys(d[1..]);
      Get(d[1..], k)
  }

  /** In a dictionary, the value found under a member's key is that
      member's value. */
  lemma {:induction false} GetAt(d: seq<Member>, i: nat)
    requires IsDict(d) && i < |d|
    ensures Get(d, d[i].key) == Some(d[i].value)
  {
    if i > 0 {
      assert d[0].key != d[i].key;
      assert d[1..][i - 1] == d[i];
      GetAt(d[1..], i - 1);
    }
  }

  /** `d[k] = v`: a key already present keeps its place, a new one goes
      at the end. */
  function Set(d: seq<Member>, k: string, v: Json): (r: seq<Member>)
    requires IsDict(d)
    ensures IsDict(r)
    ensures Keys(r) == if k in Keys(d) then Keys(d) else Keys(d) + [k]
  {
    if k in Keys(d) then
      var i :| 0 <= i < |d| && d[i].key == k;
      var r := d[i := Member(k, v)];
      assert Keys(r) == Keys(d);
      r
    else
      var r := d + [Member(k, v)];
      assert Keys(r) == Keys(d) + [k];
      r
  }

  /** After `d[k] = v`, `k` holds `v` and every other key what it held. */
  lemma SetGet(d: seq<Member>, k: string, v: Json, k': string)
    requires IsDict(d)
    ensures Get(Set(d, k, v), k') == if k' == k then Some(v) else Get(d, k')
  {
    var r := Set(d, k, v);
    if k' in Keys(r) {
      var j :| 0 <= j < |r| && Keys(r)[j] == k';
      GetAt(r, j);
      if k in Keys(d) {
        var i :| 0 <= i < |d| && d[i].key == k;
        if k' != k {
          GetAt(d, j);
        }
      } else if j < |d| {
        GetAt(d, j);
      }
    }
  }

  /**
   * `d.update(e)`, which is also how a literal `{a: x, **e}` is built:
   * every member of `e`, in order, assigned into `d`; `d`'s keys keep
   * their order at the front.
   */
  function Update(d: seq<Member>, e: seq<Member>): (r: seq<Member>)
    requires IsDict(d) && IsDict(e)
    ensures IsDict(r)
    ensures Keys(d) <= Keys(r)
    decreases |e|
  {
    if |e| == 0 then d
    else
      var e' := e[..|e| - 1];
      Set(Update(d, e'), e[|e| - 1].key, e[|e| - 1].value)
  }

  /** A key of `e` takes `e`'s value, every other key keeps `d`'s value;
      the keys are those of either side. */
  lemma {:induction false} UpdateGet(d: seq<Member>, e: seq<Member>, k: string)
    requires IsDict(d) && IsDict(e)
    ensures Get(Update(d, e), k) == if k in Keys(e) then Get(e, k) else Get(d, k)
    ensures k in Keys(Update(d, e)) <==> k in Keys(d) || k in Keys(e)
    decreases |e|
  {
    if |e| > 0 {
      var e' := e[..|e| - 1];
      var last := e[|e| - 1];
      assert Keys(e) == Keys(e') + [last.key];
      assert e == e' + [last];
      UpdateGet(d, e', k);
      SetGet(Update(d, e'), last.key, last.value, k);
      GetSnoc(e', last, k);
    }
  }

  /** Looking up in a dictionary with one more member at the end. */
  lemma {:induction false} GetSnoc(d: seq<Member>, m: Member, k: string)
    requires m.key !in Keys(d)
    ensures Get(d + [m], k) == if k == m.key then Some(m.value) else Get(d, k)
    decreases |d|
  {
    if |d| > 0 {
      assert (d + [m])[1..] == d[1..] + [m];
      assert Keys(d) == [d[0].key] + Keys(d[1..]);
      GetSnoc(d[1..], m, k);
    }
  }

  /** Two dictionaries with the same keys in the same order and the same
      value under each key are the same dictionary. */
  lemma {:induction false} Extensional(a: seq<Member>, b: seq<Member>)
    requires IsDict(a) && IsDict(b)
    requires Keys(a) == Keys(b)
    requires forall k :: Get(a, k) == Get(b, k)
    ensures a == b
  {
    assert |a| == |Keys(a)| == |Keys(b)| == |b|;
    forall i | 0 <= i < |a|
      ensures a[i] == b[i]
    {
      assert a[i].key == Keys(a)[i] == Keys(b)[i] == b[i].key;
      GetAt(a, i);
      GetAt(b, i);
      assert Get(a, a[i].key) == Get(b, a[i].key);
    }
  }

  /** Updating twice with the same members changes nothing more. */
  lemma UpdateIdempotent(d: seq<Member>, e: seq<Member>)
    requires IsDict(d) && IsDict(e)
    ensures Update(Update(d, e), e) == Update(d, e)
  {
    var once := Update(d, e);
    forall k | k in Keys(e)
      ensures k in Keys(once)
    {
      UpdateGet(d, e, k);
    }
    UpdatePresentKeys(once, e);
    forall k
      ensures Get(Update(once, e), k) == Get(once, k)
    {
      UpdateGet(once, e, k);
      UpdateGet(d, e, k);
    }
    Extensional(Update(once, e), once);
  }

  /** An update whose keys are all present keeps the key order as it is. */
  lemma {:induction false} UpdatePresentKeys(d: seq<Member>, e: seq<Member>)
    requires IsDict(d) && IsDict(e)
    requires forall k :: k in Keys(e) ==> k in Keys(d)
    ensures Keys(Update(d, e)) == Keys(d)
    decreases |e|
  {
    if |e| > 0 {
      var e' := e[..|e| - 1];
      assert Keys(e) == Keys(e') + [e[|e| - 1].key];
      UpdatePresentKeys(d, e');
    }
  }
}
