/**
 The counting pattern the analytics handlers repeat: walk a stream of
 observations and keep, per key, a click count and the set of client IPs,
 in a JavaScript object whose keys come out in first-insertion order.
 */
module Counting {

  /** One observation: the key an event falls under and the client that made it. */
  datatype Obs<K> = Obs(key: K, ip: string)

  /** A per-key accumulator `{ uniqueUsers: Set, uniqueClicks: n }`. */
  datatype Bucket<K> = Bucket(key: K, clicks: nat, users: set<string>)

  /** Count one observation: bump its key's bucket, or append a fresh one. */
  function Bump<K(==)>(t: seq<Bucket<K>>, o: Obs<K>): seq<Bucket<K>>
    decreases |t|
  {
    if |t| == 0 then [Bucket(o.key, 1, {o.ip})]
    else if t[0].key == o.key then [Bucket(o.key, t[0].clicks + 1, t[0].users + {o.ip})] + t[1..]
    else [t[0]] + Bump(t[1..], o)
  }

  /** The buckets after walking `obs` from left to right. */
  function Tally<K(==)>(obs: seq<Obs<K>>): (r: seq<Bucket<K>>)
    ensures DistinctKeys(r) && Positive(r)
    ensures SumClicks(r) == |obs|
  {
    if |obs| == 0 then []
    else
      BumpShape(Tally(obs[..|obs| - 1]), obs[|obs| - 1]);
      Bump(Tally(obs[..|obs| - 1]), obs[|obs| - 1])
  }

  /** Reference counts, computed directly from the observations. */
  function Count<K(==)>(obs: seq<Obs<K>>, k: K): nat {
    if |obs| == 0 then 0
    else Count(obs[..|obs| - 1], k) + (if obs[|obs| - 1].key == k then 1 else 0)
  }

  function Clients<K(==)>(obs: seq<Obs<K>>, k: K): set<string> {
    if |obs| == 0 then {}
    else Clients(obs[..|obs| - 1], k) + (if obs[|obs| - 1].key == k then {obs[|obs| - 1].ip} else {})
  }

  /** The bucket of `k` read back: clicks and clients, zero and empty when absent. */
  function ClicksOf<K(==)>(t: seq<Bucket<K>>, k: K): nat {
    if |t| == 0 then 0 else if t[0].key == k then t[0].clicks else ClicksOf(t[1..], k)
  }

  function UsersOf<K(==)>(t: seq<Bucket<K>>, k: K): set<string> {
    if |t| == 0 then {} else if t[0].key == k then t[0].users else UsersOf(t[1..], k)
  }

  predicate HasKey<K(==)>(t: seq<Bucket<K>>, k: K) {
    exists i :: 0 <= i < |t| && t[i].key == k
  }

  function SumClicks<K>(t: seq<Bucket<K>>): nat {
    if |t| == 0 then 0 else t[0].clicks + SumClicks(t[1..])
  }

  predicate DistinctKeys<K(==)>(t: seq<Bucket<K>>) {
    forall i, j :: 0 <= i < j < |t| ==> t[i].key != t[j].key
  }

  predicate Positive<K>(t: seq<Bucket<K>>) {
    forall i :: 0 <= i < |t| ==> t[i].clicks >= 1
  }

  /**
   Keys keep their first-insertion positions: bumping an existing key keeps
   the length, and a new key gets a fresh bucket at the end.
   */
  lemma {:induction false} BumpOrder<K>(t: seq<Bucket<K>>, o: Obs<K>)
    ensures |Bump(t, o)| == if HasKey(t, o.key) then |t| else |t| + 1
    ensures forall i :: 0 <= i < |t| ==> Bump(t, o)[i].key == t[i].key
    ensures !HasKey(t, o.key) ==> Bump(t, o)[|t|] == Bucket(o.key, 1, {o.ip})
    decreases |t|
  {
    if |t| > 0 && t[0].key != o.key {
      BumpOrder(t[1..], o);
      var b := Bump(t, o);
      assert b[1..] == Bump(t[1..], o);
      if HasKey(t, o.key) {
        var i :| 0 <= i < |t| && t[i].key == o.key;
        assert t[1..][i - 1].key == o.key;
      }
      if HasKey(t[1..], o.key) {
        var i :| 0 <= i < |t[1..]| && t[1..][i].key == o.key;
        assert t[i + 1].key == o.key;
      }
    }
  }

  lemma {:induction false} BumpSpec<K>(t: seq<Bucket<K>>, o: Obs<K>, k: K)
    ensures ClicksOf(Bump(t, o), k) == ClicksOf(t, k) + (if k == o.key then 1 else 0)
    ensures UsersOf(Bump(t, o), k) == UsersOf(t, k) + (if k == o.key then {o.ip} else {})
    ensures HasKey(Bump(t, o), k) <==> HasKey(t, k) || k == o.key
    decreases |t|
  {
    if |t| > 0 && t[0].key != o.key {
      BumpSpec(t[1..], o, k);
      assert Bump(t, o)[1..] == Bump(t[1..], o);
    }
    BumpKeys(t, o, k);
  }

  /** Bumping adds the observed key and no other. */
  lemma BumpKeys<K>(t: seq<Bucket<K>>, o: Obs<K>, k: K)
    ensures HasKey(Bump(t, o), k) <==> HasKey(t, k) || k == o.key
  {
    var b := Bump(t, o);
    BumpOrder(t, o);
    if HasKey(t, k) {
      var i :| 0 <= i < |t| && t[i].key == k;
      assert b[i].key == k;
    }
    if HasKey(b, k) {
      var i :| 0 <= i < |b| && b[i].key == k;
      if i < |t| {
        assert t[i].key == k;
      }
    }
    if k == o.key && !HasKey(t, k) {
      assert b[|t|].key == k;
    }
  }

  lemma {:induction false} BumpShape<K>(t: seq<Bucket<K>>, o: Obs<K>)
    ensures SumClicks(Bump(t, o)) == SumClicks(t) + 1
    ensures DistinctKeys(t) ==> DistinctKeys(Bump(t, o))
    ensures Positive(t) ==> Positive(Bump(t, o))
    decreases |t|
  {
    var b := Bump(t, o);
    if |t| > 0 && t[0].key != o.key {
      BumpShape(t[1..], o);
      assert b[1..] == Bump(t[1..], o);
      if Positive(t) {
        assert Positive(t[1..]) by {
          forall i | 0 <= i < |t[1..]| ensures t[1..][i].clicks >= 1 {
            assert t[1..][i] == t[i + 1];
          }
        }
      }
    } else if |t| > 0 {
      assert b[1..] == t[1..];
    }
    if DistinctKeys(t) {
      BumpOrder(t, o);
      forall i, j | 0 <= i < j < |b| ensures b[i].key != b[j].key {
        if j == |t| {
          assert t[i].key != o.key;
        }
      }
    }
  }

  /** The buckets hold, for every key, exactly the reference count and client set. */
  lemma {:induction false} TallyCounts<K>(obs: seq<Obs<K>>, k: K)
    ensures ClicksOf(Tally(obs), k) == Count(obs, k)
    ensures UsersOf(Tally(obs), k) == Clients(obs, k)
    ensures HasKey(Tally(obs), k) <==> Count(obs, k) > 0
    decreases |obs|
  {
    if |obs| > 0 {
      var init := obs[..|obs| - 1];
      TallyCounts(init, k);
      BumpSpec(Tally(init), obs[|obs| - 1], k);
    }
  }

  /** A key has at most as many distinct clients as clicks. */
  lemma {:induction false} ClientsBound<K>(obs: seq<Obs<K>>, k: K)
    ensures |Clients(obs, k)| <= Count(obs, k)
    ensures Count(obs, k) > 0 ==> |Clients(obs, k)| > 0
    decreases |obs|
  {
    if |obs| > 0 {
      ClientsBound(obs[..|obs| - 1], k);
    }
  }

  /** With distinct keys, reading a bucket back by its key finds that bucket. */
  lemma {:induction false} ReadBack<K>(t: seq<Bucket<K>>, i: nat)
    requires DistinctKeys(t) && i < |t|
    ensures ClicksOf(t, t[i].key) == t[i].clicks && UsersOf(t, t[i].key) == t[i].users
    decreases |t|
  {
    if i > 0 {
      assert DistinctKeys(t[1..]) by {
        forall a, b | 0 <= a < b < |t[1..]| ensures t[1..][a].key != t[1..][b].key {
          assert t[1..][a] == t[a + 1] && t[1..][b] == t[b + 1];
        }
      }
      ReadBack(t[1..], i - 1);
    }
  }

  /**
   Everything the handlers rely on, per bucket: its clicks are the key's
   count, its clients the key's clients, no more clients than clicks, at
   least one of each; and the buckets cover the keys seen and sum to |obs|.
   */
  lemma TallyCorrect<K>(obs: seq<Obs<K>>)
    ensures var t := Tally(obs);
            && DistinctKeys(t)
            && SumClicks(t) == |obs|
            && (forall i :: 0 <= i < |t| ==>
                  && t[i].clicks == Count(obs, t[i].key)
                  && t[i].users == Clients(obs, t[i].key)
                  && 1 <= |t[i].users| <= t[i].clicks)
            && (forall k :: HasKey(t, k) <==> Count(obs, k) > 0)
  {
    var t := Tally(obs);
    forall i | 0 <= i < |t|
      ensures t[i].clicks == Count(obs, t[i].key) && t[i].users == Clients(obs, t[i].key)
      ensures 1 <= |t[i].users| <= t[i].clicks
    {
      ReadBack(t, i);
      TallyCounts(obs, t[i].key);
      ClientsBound(obs, t[i].key);
    }
    forall k ensures HasKey(t, k) <==> Count(obs, k) > 0 {
      TallyCounts(obs, k);
    }
  }

  lemma TallyAppend<K>(obs: seq<Obs<K>>, o: Obs<K>)
    ensures Tally(obs + [o]) == Bump(Tally(obs), o)
  {
    assert (obs + [o])[..|obs|] == obs;
  }

}
