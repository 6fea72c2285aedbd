/** JSON values shaped like the Python dicts the plugin builds.

    A Python dict remembers insertion order and holds each key once, so an
    object is an ordered list of members. `Set` is the dict assignment
    `d[k] = v`: it overwrites in place when the key is present and
    appends otherwise. */
module Json {
  import opened Options

  datatype Value =
    | Null
    | Bool(b: bool)
    | Num(n: int)
    | Str(s: string)
    | Arr(items: seq<Value>)
    | Obj(members: seq<Member>)

  datatype Member = Member(key: string, value: Value)

  /** The keys of an object, in insertion order. */
  function Keys(ms: seq<Member>): seq<string>
  {
    seq(|ms|, i requires 0 <= i < |ms| => ms[i].key)
  }

  /** A well-formed dict holds every key at most once. */
  predicate DistinctKeys(ms: seq<Member>)
  {
    forall i, j :: 0 <= i < j < |ms| ==> ms[i].key != ms[j].key
  }

  /** The position of the first member with key `k`, or `|ms|` when there is none. */
  function IndexOf(ms: seq<Member>, k: string): (i: nat)
    ensures i <= |ms|
    ensures i < |ms| <==> k in Keys(ms)
    ensures i < |ms| ==> ms[i].key == k
    ensures forall j :: 0 <= j < i ==> ms[j].key != k
  {
    if |ms| == 0 then 0
    else if ms[0].key == k then
      assert Keys(ms)[0] == k;
      0
    else
      assert Keys(ms) == [ms[0].key] + Keys(ms[1..]);
      1 + IndexOf(ms[1..], k)
  }

  /** `d.get(k)`: the value stored under `k`, if any. */
  function Lookup(ms: seq<Member>, k: string): Option<Value>
  {
    var i := IndexOf(ms, k);
    if i < |ms| then Some(ms[i].value) else None
  }

  /** In a well-formed dict the member at position `i` is what a lookup of its key finds. */
  lemma LookupAt(ms: seq<Member>, i: nat)
    requires DistinctKeys(ms)
    requires i < |ms|
    ensures Lookup(ms, ms[i].key) == Some(ms[i].value)
  {
    var j := IndexOf(ms, ms[i].key);
    assert j == i;
  }

  /** The value stored under `k` in an object; nothing for a non-object. */
  function Get(v: Value, k: string): Option<Value>
  {
    if v.Obj? then Lookup(v.members, k) else None
  }

  /** `d[k] = v`. */
  function Set(ms: seq<Member>, k: string, v: Value): (r: seq<Member>)
    ensures Keys(r) == if k in Keys(ms) then Keys(ms) else Keys(ms) + [k]
    ensures k !in Keys(ms) ==> r == ms + [Member(k, v)]
    ensures DistinctKeys(ms) ==> DistinctKeys(r)
  {
    var i := IndexOf(ms, k);
    if i < |ms| then
      AssignInPlace(ms, i, Member(k, v));
      ms[i := Member(k, v)]
    else
      AssignAppend(ms, Member(k, v));
      ms + [Member(k, v)]
  }

  /** After `d[k] = v`, looking up `k` finds `v` and every other key finds what it found before. */
  lemma SetLookup(ms: seq<Member>, k: string, v: Value)
    ensures Lookup(Set(ms, k, v), k) == Some(v)
    ensures forall k' :: k' != k ==> Lookup(Set(ms, k, v), k') == Lookup(ms, k')
  {
    var i := IndexOf(ms, k);
    if i < |ms| {
      AssignInPlace(ms, i, Member(k, v));
    } else {
      AssignAppend(ms, Member(k, v));
    }
  }

  /** Overwriting the member at the index of its key changes only that key's value. */
  lemma AssignInPlace(ms: seq<Member>, i: nat, m: Member)
    requires i < |ms| && i == IndexOf(ms, m.key)
    ensures Lookup(ms[i := m], m.key) == Some(m.value)
    ensures forall k' :: k' != m.key ==> Lookup(ms[i := m], k') == Lookup(ms, k')
    ensures Keys(ms[i := m]) == Keys(ms)
    ensures DistinctKeys(ms) ==> DistinctKeys(ms[i := m])
  {
    var r := ms[i := m];
    assert Keys(r) == Keys(ms);
    IndexFirst(r, m.key, i);
    forall k' | k' != m.key
      ensures Lookup(r, k') == Lookup(ms, k')
    {
      IndexFirst(r, k', IndexOf(ms, k'));
    }
  }

  /** Appending a member with a new key adds exactly that key. */
  lemma AssignAppend(ms: seq<Member>, m: Member)
    requires m.key !in Keys(ms)
    ensures Lookup(ms + [m], m.key) == Some(m.value)
    ensures forall k' :: k' != m.key ==> Lookup(ms + [m], k') == Lookup(ms, k')
    ensures Keys(ms + [m]) == Keys(ms) + [m.key]
    ensures DistinctKeys(ms) ==> DistinctKeys(ms + [m])
  {
    var r := ms + [m];
    assert Keys(r) == Keys(ms) + [m.key];
    assert forall l :: 0 <= l < |ms| ==> r[l].key == Keys(ms)[l];
    IndexFirst(r, m.key, |ms|);
    forall k' | k' != m.key
      ensures Lookup(r, k') == Lookup(ms, k')
    {
      var j := IndexOf(ms, k');
      if j < |ms| {
        IndexFirst(r, k', j);
      } else {
        IndexFirst(r, k', |r|);
      }
    }
    if DistinctKeys(ms) {
      forall a, b | 0 <= a < b < |r|
        ensures r[a].key != r[b].key
      {
        if b == |ms| { assert Keys(ms)[a] == r[a].key; }
      }
    }
  }

  /** The index of `k` is the first position carrying it, or the length when none does. */
  lemma IndexFirst(ms: seq<Member>, k: string, j: nat)
    requires j <= |ms|
    requires forall l :: 0 <= l < j ==> ms[l].key != k
    requires j < |ms| ==> ms[j].key == k
    ensures IndexOf(ms, k) == j
  {
  }

  /** Lookups in a one-member dict literal. */
  lemma LookupOne(k: string, v: Value)
    ensures Keys([Member(k, v)]) == [k]
    ensures DistinctKeys([Member(k, v)])
    ensures forall x :: Lookup([Member(k, v)], x) == if x == k then Some(v) else None
  {
  }

  /** Lookups in a two-member dict literal with distinct keys. */
  lemma LookupTwo(k1: string, v1: Value, k2: string, v2: Value)
    requires k1 != k2
    ensures Keys([Member(k1, v1), Member(k2, v2)]) == [k1, k2]
    ensures DistinctKeys([Member(k1, v1), Member(k2, v2)])
    ensures forall x :: Lookup([Member(k1, v1), Member(k2, v2)], x) ==
                        if x == k1 then Some(v1) else if x == k2 then Some(v2) else None
  {
    var ms := [Member(k1, v1), Member(k2, v2)];
    assert ms[1..] == [Member(k2, v2)];
    LookupOne(k2, v2);
  }

  /** Lookups in a three-member dict literal with distinct keys. */
  lemma LookupThree(k1: string, v1: Value, k2: string, v2: Value, k3: string, v3: Value)
    requires k1 != k2 && k1 != k3 && k2 != k3
    ensures Keys([Member(k1, v1), Member(k2, v2), Member(k3, v3)]) == [k1, k2, k3]
    ensures DistinctKeys([Member(k1, v1), Member(k2, v2), Member(k3, v3)])
    ensures forall x :: Lookup([Member(k1, v1), Member(k2, v2), Member(k3, v3)], x) ==
                        if x == k1 then Some(v1) else if x == k2 then Some(v2) else if x == k3 then Some(v3) else None
  {
    var ms := [Member(k1, v1), Member(k2, v2), Member(k3, v3)];
    assert ms[1..] == [Member(k2, v2), Member(k3, v3)];
    LookupTwo(k2, v2, k3, v3);
  }
}
