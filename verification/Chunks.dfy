/** Batch jobs: how remote calls and runs end, and the ids of a batch: their set, an arbitrary choice
    of some of them, and consecutive chunks. */
module Chunks {
  import opened Common

  /** What becomes of a remote call. A call that throws may still have taken effect. */
  datatype Outcome = Works | Fails(applied: bool, text: string)

  /** A run returns, throws because its query threw, or dies with its process. */
  datatype End = Finished | Rejected | Killed

  function SetOf<K>(ids: seq<K>): set<K> {
    if ids == [] then {} else SetOf(ids[..|ids| - 1]) + {ids[|ids| - 1]}
  }

  lemma {:induction false} SetOfMembers<K(!new)>(ids: seq<K>)
    ensures forall x :: x in SetOf(ids) <==> exists k :: 0 <= k < |ids| && ids[k] == x
  {
    if ids != [] {
      SetOfMembers(ids[..|ids| - 1]);
      assert forall k :: 0 <= k < |ids| - 1 ==> ids[..|ids| - 1][k] == ids[k];
    }
  }

  lemma {:induction false} SetOfConcat<K>(a: seq<K>, b: seq<K>)
    ensures SetOf(a + b) == SetOf(a) + SetOf(b)
  {
    if b == [] {
      assert a + b == a;
    } else {
      SetOfConcat(a, b[..|b| - 1]);
      assert (a + b)[..|a + b| - 1] == a + b[..|b| - 1];
    }
  }

  lemma {:induction false} SetOfSize<K(!new)>(ids: seq<K>)
    requires Distinct(ids)
    ensures |SetOf(ids)| == |ids|
  {
    if ids != [] {
      SetOfSize(ids[..|ids| - 1]);
      SetOfMembers(ids[..|ids| - 1]);
    }
  }

  lemma SetOfHas<K(!new)>(ids: seq<K>, pool: set<K>)
    ensures SetOf(ids) <= pool <==> forall i :: 0 <= i < |ids| ==> ids[i] in pool
  {
    SetOfMembers(ids);
  }

  lemma Missing<K(!new)>(part: set<K>, whole: set<K>) returns (x: K)
    requires part <= whole && part != whole
    ensures x in whole && x !in part
  {
    assert (forall y :: y in whole ==> y in part) ==> whole <= part;
    x :| x in whole && x !in part;
  }

  lemma SubsetSize<K(!new)>(part: set<K>, whole: set<K>)
    requires part <= whole
    ensures |part| <= |whole|
  {
    assert whole == part + (whole - part);
  }

  lemma SameSize<K(!new)>(part: set<K>, whole: set<K>)
    requires part <= whole && |part| == |whole|
    ensures part == whole
  {
    assert whole == part + (whole - part);
  }

  method AnyOf<K>(pool: set<K>) returns (id: K)
    requires pool != {}
    ensures id in pool
  {
    id :| id in pool;
  }

  /** Up to `limit` of the ids, in whatever order the database finds them. */
  method Pick<K(!new)>(pool: set<K>, limit: nat) returns (ids: seq<K>)
    ensures Distinct(ids) && SetOf(ids) <= pool
    ensures forall i :: 0 <= i < |ids| ==> ids[i] in pool
    ensures |ids| == if |pool| < limit then |pool| else limit
  {
    ids := [];
    var rest := pool;
    while rest != {} && |ids| < limit
      invariant rest <= pool && |ids| <= limit && |ids| + |rest| == |pool|
      invariant Distinct(ids) && forall i :: 0 <= i < |ids| ==> ids[i] in pool - rest
    {
      var id := AnyOf(rest);
      ids, rest := ids + [id], rest - {id};
    }
    SetOfMembers(ids);
  }

  lemma ChunksDisjoint<K(!new)>(ids: seq<K>, i: nat, end: nat)
    requires Distinct(ids) && i <= end <= |ids|
    ensures SetOf(ids[..i]) !! SetOf(ids[i..end])
  {
    SetOfMembers(ids[..i]);
    SetOfMembers(ids[i..end]);
  }

  /** The chunks are, one after the other, the first i ids; none is empty or has more than `size`. */
  ghost predicate Slices<K(!new)>(chunks: seq<seq<K>>, ids: seq<K>, i: nat, size: nat) {
    i <= |ids| && Concat(chunks) == ids[..i] && forall k :: 0 <= k < |chunks| ==> 0 < |chunks[k]| <= size
  }

  lemma SlicesMore<K(!new)>(chunks: seq<seq<K>>, ids: seq<K>, i: nat, end: nat, size: nat)
    requires Slices(chunks, ids, i, size) && i < end <= |ids| && end - i <= size
    ensures Slices(chunks + [ids[i..end]], ids, end, size)
  {
    ConcatSnoc(chunks, ids[i..end]);
    assert ids[..i] + ids[i..end] == ids[..end];
  }

  /** Chunks that are not empty are no more than the elements they hold. */
  lemma {:induction false} ConcatLonger<K(!new)>(chunks: seq<seq<K>>)
    requires forall k :: 0 <= k < |chunks| ==> chunks[k] != []
    ensures |chunks| <= |Concat(chunks)|
  {
    if chunks != [] {
      ConcatLonger(chunks[..|chunks| - 1]);
    }
  }

  lemma PrefixSubset<K(!new)>(ids: seq<K>, i: nat)
    requires i <= |ids|
    ensures SetOf(ids[..i]) <= SetOf(ids)
  {
    SetOfConcat(ids[..i], ids[i..]);
    assert ids[..i] + ids[i..] == ids;
  }

  lemma PrefixSets<K(!new)>(ids: seq<K>, i: nat, end: nat)
    requires i <= end <= |ids|
    ensures SetOf(ids[..end]) == SetOf(ids[..i]) + SetOf(ids[i..end])
    ensures SetOf(ids[..i]) <= SetOf(ids) && SetOf(ids[..end]) <= SetOf(ids)
  {
    SetOfConcat(ids[..i], ids[i..end]);
    assert ids[..i] + ids[i..end] == ids[..end];
    PrefixSubset(ids, i);
    PrefixSubset(ids, end);
  }

  lemma SlicesBounds<K(!new)>(chunks: seq<seq<K>>, ids: seq<K>, i: nat, size: nat)
    requires Slices(chunks, ids, i, size) && Distinct(ids)
    ensures Distinct(Concat(chunks)) && SetOf(Concat(chunks)) <= SetOf(ids) && |chunks| <= |Concat(chunks)| <= |ids|
    ensures i == |ids| ==> Concat(chunks) == ids
  {
    PrefixSets(ids, i, i);
    ConcatLonger(chunks);
    assert ids[..|ids|] == ids;
  }

  // ---- Deleting in chunks ----

  /** Call number k took effect. */
  predicate Applied(fate: nat -> Outcome, k: nat) {
    fate(k).Works? || fate(k).applied
  }

  /** What the chunks, one call each from call number `first`, leave of a table. */
  function Remaining<K, V>(m: map<K, V>, chunks: seq<seq<K>>, fate: nat -> Outcome, first: nat): map<K, V> {
    if chunks == [] then m
    else
      var n := |chunks| - 1;
      var before := Remaining(m, chunks[..n], fate, first);
      if Applied(fate, first + n) then before - SetOf(chunks[n]) else before
  }

  /** The keys they leave. */
  function KeysLeft<K>(keys: set<K>, chunks: seq<seq<K>>, fate: nat -> Outcome, first: nat): set<K> {
    if chunks == [] then keys
    else
      var n := |chunks| - 1;
      var before := KeysLeft(keys, chunks[..n], fate, first);
      if Applied(fate, first + n) then before - SetOf(chunks[n]) else before
  }

  /** How many keys the acknowledged chunks had. */
  function Acked<K>(chunks: seq<seq<K>>, fate: nat -> Outcome, first: nat): nat {
    if chunks == [] then 0
    else
      var n := |chunks| - 1;
      Acked(chunks[..n], fate, first) + if fate(first + n).Works? then |chunks[n]| else 0
  }

  lemma DistinctParts<K(!new)>(init: seq<seq<K>>, last: seq<K>)
    requires Distinct(Concat(init) + last)
    ensures Distinct(Concat(init)) && Distinct(last)
    ensures SetOf(Concat(init)) !! SetOf(last) && SetOf(Concat(init) + last) == SetOf(Concat(init)) + SetOf(last)
  {
    var a, all := Concat(init), Concat(init) + last;
    assert all[..|a|] == a && all[|a|..|all|] == last;
    SetOfConcat(a, last);
    ChunksDisjoint(all, |a|, |all|);
  }

  lemma LeftLess<K(!new)>(keys: set<K>, before: set<K>, taken: set<K>, last: seq<K>)
    requires Distinct(last) && SetOf(last) <= keys && taken !! SetOf(last) && before <= keys && keys - before <= taken
    ensures |before - SetOf(last)| == |before| - |last| && keys - (before - SetOf(last)) <= taken + SetOf(last)
  {
    SetOfSize(last);
    assert SetOf(last) <= before;
  }

  /** Chunks of distinct keys remove at least the acknowledged ones, and all of them if every call
      worked. */
  lemma {:induction false} LeftBounds<K(!new)>(keys: set<K>, chunks: seq<seq<K>>, fate: nat -> Outcome, first: nat)
    requires Distinct(Concat(chunks)) && SetOf(Concat(chunks)) <= keys
    ensures KeysLeft(keys, chunks, fate, first) <= keys
    ensures keys - KeysLeft(keys, chunks, fate, first) <= SetOf(Concat(chunks))
    ensures Acked(chunks, fate, first) + |KeysLeft(keys, chunks, fate, first)| <= |keys|
    ensures (forall k :: first <= k < first + |chunks| ==> fate(k).Works?) ==>
              && KeysLeft(keys, chunks, fate, first) == keys - SetOf(Concat(chunks))
              && Acked(chunks, fate, first) == |Concat(chunks)|
  {
    if chunks != [] {
      var n := |chunks| - 1;
      DistinctParts(chunks[..n], chunks[n]);
      LeftBounds(keys, chunks[..n], fate, first);
      LeftLess(keys, KeysLeft(keys, chunks[..n], fate, first), SetOf(Concat(chunks[..n])), chunks[n]);
    }
  }

  lemma {:induction false} RemainingKeys<K(!new), V>(m: map<K, V>, chunks: seq<seq<K>>, fate: nat -> Outcome,
                                                     first: nat)
    ensures var after := Remaining(m, chunks, fate, first);
            && after.Keys == KeysLeft(m.Keys, chunks, fate, first) <= m.Keys
            && forall id :: id in after ==> after[id] == m[id]
  {
    if chunks != [] {
      RemainingKeys(m, chunks[..|chunks| - 1], fate, first);
    }
  }

  lemma RemainingIsMinus<K(!new), V>(m: map<K, V>, chunks: seq<seq<K>>, fate: nat -> Outcome, first: nat)
    returns (gone: set<K>)
    requires Distinct(Concat(chunks)) && SetOf(Concat(chunks)) <= m.Keys
    ensures gone <= SetOf(Concat(chunks)) && Remaining(m, chunks, fate, first) == m - gone
    ensures Acked(chunks, fate, first) + |Remaining(m, chunks, fate, first)| <= |m|
    ensures (forall k :: first <= k < first + |chunks| ==> fate(k).Works?) ==>
              gone == SetOf(Concat(chunks)) && Acked(chunks, fate, first) == |Concat(chunks)|
  {
    gone := m.Keys - KeysLeft(m.Keys, chunks, fate, first);
    RemainingKeys(m, chunks, fate, first);
    LeftBounds(m.Keys, chunks, fate, first);
    MinusRest(m, Remaining(m, chunks, fate, first), gone);
  }

  lemma MinusRest<K(!new), V>(m: map<K, V>, rest: map<K, V>, gone: set<K>)
    requires rest.Keys <= m.Keys && gone == m.Keys - rest.Keys && forall id :: id in rest ==> rest[id] == m[id]
    ensures rest == m - gone && |rest| == |rest.Keys|
  {
    assert (m - gone).Keys == rest.Keys;
  }
}
