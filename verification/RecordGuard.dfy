/** The byte guard in front of the export reader. */
module RecordGuard {
  import opened Common
  import opened ForensicExport

  const NEWLINE: int := 0x0a

  /** Every run of bytes without a newline is within the limit. */
  ghost predicate RunsWithin(bytes: seq<int>, limit: nat) {
    forall i, j :: 0 <= i <= j <= |bytes| && NoNewline(bytes, i, j) ==> j - i <= limit
  }

  ghost predicate NoNewline(bytes: seq<int>, i: nat, j: nat)
    requires i <= j <= |bytes|
  {
    forall k :: i <= k < j ==> bytes[k] != NEWLINE
  }

  /** The bytes since the last newline. */
  function Tail(bytes: seq<int>): nat
    ensures Tail(bytes) <= |bytes|
  {
    if bytes == [] || bytes[|bytes| - 1] == NEWLINE then 0 else 1 + Tail(bytes[..|bytes| - 1])
  }

  lemma {:induction false} TailIsRun(bytes: seq<int>)
    ensures NoNewline(bytes, |bytes| - Tail(bytes), |bytes|)
    ensures forall i :: 0 <= i <= |bytes| && NoNewline(bytes, i, |bytes|) ==> |bytes| - i <= Tail(bytes)
  {
    if bytes != [] {
      var n := |bytes| - 1;
      TailIsRun(bytes[..n]);
      if bytes[n] != NEWLINE {
        forall i | 0 <= i <= |bytes| && NoNewline(bytes, i, |bytes|) ensures |bytes| - i <= Tail(bytes) {
          if i <= n {
            assert NoNewline(bytes[..n], i, n);
          }
        }
      }
    }
  }

  /** One more byte is within the limit exactly if the run it ends is. */
  lemma RunsSnoc(bytes: seq<int>, b: int, limit: nat)
    ensures RunsWithin(bytes + [b], limit) <==> RunsWithin(bytes, limit) && Tail(bytes + [b]) <= limit
  {
    var all, n := bytes + [b], |bytes|;
    TailIsRun(all);
    forall i, j | 0 <= i <= j <= n ensures NoNewline(all, i, j) <==> NoNewline(bytes, i, j) {
      assert forall k :: i <= k < j ==> all[k] == bytes[k];
    }
    if RunsWithin(all, limit) {
      assert |all| - (|all| - Tail(all)) <= limit;
      forall i, j | 0 <= i <= j <= n && NoNewline(bytes, i, j) ensures j - i <= limit {
        assert NoNewline(all, i, j);
      }
    }
  }

  class Guard {
    var recordBytes: nat
    ghost var seen: seq<int>

    /** The counter is the length of the current record, and everything passed on so far is within
        the limit. */
    ghost predicate Valid()
      reads this
    {
      recordBytes == Tail(seen) && RunsWithin(seen, MAX_RECORD_BYTES)
    }

    constructor ()
      ensures Valid() && seen == []
    {
      recordBytes, seen := 0, [];
    }

    method Transform(chunk: seq<int>) returns (ok: bool)
      requires Valid()
      modifies this
      ensures ok <==> RunsWithin(old(seen) + chunk, MAX_RECORD_BYTES)
      ensures ok ==> Valid() && seen == old(seen) + chunk
    {
      assert chunk[..0] == [] && seen + [] == seen;
      for k := 0 to |chunk|
        invariant Valid() && seen == old(seen) + chunk[..k]
      {
        assert old(seen) + chunk[..k + 1] == seen + [chunk[k]];
        assert (seen + [chunk[k]])[..|seen|] == seen;
        RunsSnoc(seen, chunk[k], MAX_RECORD_BYTES);
        if chunk[k] == NEWLINE {
          recordBytes := 0;
        } else {
          recordBytes := recordBytes + 1;
          if recordBytes > MAX_RECORD_BYTES {
            RunsPrefix(old(seen) + chunk, |old(seen)| + k + 1, MAX_RECORD_BYTES);
            assert (old(seen) + chunk)[..|old(seen)| + k + 1] == old(seen) + chunk[..k + 1];
            return false;
          }
        }
        seen := seen + [chunk[k]];
      }
      assert chunk[..|chunk|] == chunk;
      return true;
    }
  }

  lemma RunsPrefix(bytes: seq<int>, n: nat, limit: nat)
    requires n <= |bytes|
    ensures RunsWithin(bytes, limit) ==> RunsWithin(bytes[..n], limit)
  {
    forall i, j | 0 <= i <= j <= n ensures NoNewline(bytes[..n], i, j) <==> NoNewline(bytes, i, j) {
      assert forall k :: i <= k < j ==> bytes[..n][k] == bytes[k];
    }
  }

  lemma {:induction false} ConcatPrefix(chunks: seq<seq<int>>, k: nat)
    requires k <= |chunks|
    ensures Concat(chunks[..k]) <= Concat(chunks)
    ensures k < |chunks| ==> Concat(chunks[..k]) + chunks[k] == Concat(chunks[..k + 1])
    decreases |chunks| - k
  {
    if k < |chunks| {
      assert chunks[..k + 1][..k] == chunks[..k];
      ConcatPrefix(chunks, k + 1);
    } else {
      assert chunks[..k] == chunks;
    }
  }

  /** The verdict on a stream depends only on its bytes, not on how it is cut into chunks. */
  method GuardStream(chunks: seq<seq<int>>) returns (ok: bool)
    ensures ok <==> RunsWithin(Concat(chunks), MAX_RECORD_BYTES)
  {
    var guard := new Guard();
    assert chunks[..0] == [];
    for k := 0 to |chunks|
      invariant guard.Valid() && guard.seen == Concat(chunks[..k])
    {
      ConcatPrefix(chunks, k);
      ConcatPrefix(chunks, k + 1);
      ok := guard.Transform(chunks[k]);
      if !ok {
        RunsPrefix(Concat(chunks), |Concat(chunks[..k + 1])|, MAX_RECORD_BYTES);
        assert Concat(chunks)[..|Concat(chunks[..k + 1])|] == Concat(chunks[..k + 1]);
        return;
      }
    }
    assert chunks[..|chunks|] == chunks;
    ok := true;
  }
}
