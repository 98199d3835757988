/** The forensic export verifier: a streaming recogniser proved equal to a declarative grammar, what
    edits it detects, and the byte guard in front of it. */
module ForensicExport {
  import opened Common

  const MAX_EVENTS := 10_000
  const MAX_RECORD_BYTES := 64 * 1024

  datatype Rec =
    | Manifest(format: string, generatedAt: string, maxEvents: int, incidentRef: Option<string>)
    | Event(id: int, eventIncident: Option<string>)
    | Complete(eventCount: int)

  /** A line as the reader delivers it: its length in bytes, and the record it parses to, if any. */
  datatype Line = Line(bytes: nat, parsed: Option<Rec>)

  /** The bounds the record schemas impose. */
  predicate SchemaOk(r: Rec) {
    match r
    case Manifest(_, _, maxEvents, _) => 1 <= maxEvents <= MAX_EVENTS
    case Event(id, _) => id > 0
    case Complete(eventCount) => 0 <= eventCount <= MAX_EVENTS
  }

  predicate LineOk(l: Line) {
    0 < l.bytes <= MAX_RECORD_BYTES && l.parsed.Some? && SchemaOk(l.parsed.value)
  }

  // ---- The grammar ----

  ghost predicate IsEventFor(l: Line, incident: Option<string>) {
    l.parsed.Some? && l.parsed.value.Event? && (incident.Some? ==> l.parsed.value.eventIncident == incident)
  }

  /** One manifest that allows at most ten thousand events, then events with distinct positive identifiers
      that match its incident and respect its limit, then one completion record with their exact number, and
      nothing else; every line has at most 64 KiB. */
  ghost predicate Grammar(lines: seq<Line>) {
    && |lines| >= 2
    && (forall k :: 0 <= k < |lines| ==> lines[k].parsed.Some? && 0 < lines[k].bytes <= 64 * 1024)
    && var manifest := lines[0].parsed.value;
       && manifest.Manifest? && 1 <= manifest.maxEvents <= 10_000 && |lines| - 2 <= manifest.maxEvents
       && (forall k :: 1 <= k < |lines| - 1 ==>
             && lines[k].parsed.value.Event? && lines[k].parsed.value.id > 0
             && manifest.incidentRef in {None, lines[k].parsed.value.eventIncident})
       && (forall i, j :: 1 <= i < j < |lines| - 1 ==> lines[i].parsed.value.id != lines[j].parsed.value.id)
       && lines[|lines| - 1].parsed.value == Complete(|lines| - 2)
  }

  datatype Summary = Summary(format: string, generatedAt: string, eventCount: nat, incidentRef: Option<string>)

  /** What the reader may have accepted so far: a manifest and events, perhaps completed. */
  ghost predicate Prefix(lines: seq<Line>, manifest: Option<Rec>, count: nat, ids: set<int>, complete: bool) {
    && (forall k :: 0 <= k < |lines| ==> lines[k].parsed.Some? && LineOk(lines[k]))
    && (manifest.None? <==> lines == [])
    && (manifest.None? ==> !complete && count == 0 && ids == {})
    && (manifest.Some? ==>
          && manifest.value.Manifest? && lines[0].parsed == manifest
          && |lines| == count + 1 + (if complete then 1 else 0)
          && (forall k :: 1 <= k <= count ==> IsEventFor(lines[k], manifest.value.incidentRef))
          && (forall i, j :: 1 <= i < j <= count ==> lines[i].parsed.value.id != lines[j].parsed.value.id)
          && (forall k :: 1 <= k <= count ==> lines[k].parsed.value.id in ids)
          && (forall id :: id in ids ==> exists k :: 1 <= k <= count && lines[k].parsed.value.id == id)
          && count <= manifest.value.maxEvents
          && (complete ==> lines[count + 1].parsed.value == Complete(count)))
  }

  /** If the first line that breaks the reader's rules is line k, no continuation is in the grammar. */
  lemma BadLineRejects(lines: seq<Line>, k: nat, manifest: Option<Rec>, count: nat, ids: set<int>, complete: bool)
    requires k < |lines| && Prefix(lines[..k], manifest, count, ids, complete)
    requires Grammar(lines)
    ensures !complete && LineOk(lines[k])
    ensures manifest.None? <==> lines[k].parsed.value.Manifest?
    ensures lines[k].parsed.value.Event? ==>
              count < manifest.value.maxEvents && lines[k].parsed.value.id !in ids
              && IsEventFor(lines[k], manifest.value.incidentRef)
    ensures lines[k].parsed.value.Complete? ==> lines[k].parsed.value.eventCount == count
  {
    if k > 0 {
      assert forall j :: 0 <= j < k ==> lines[..k][j] == lines[j];
    }
  }

  lemma EventGrows(lines: seq<Line>, manifest: Option<Rec>, count: nat, ids: set<int>, l: Line)
    requires Prefix(lines, manifest, count, ids, false) && manifest.Some? && LineOk(l)
    requires count < manifest.value.maxEvents && IsEventFor(l, manifest.value.incidentRef) && l.parsed.value.id !in ids
    ensures Prefix(lines + [l], manifest, count + 1, ids + {l.parsed.value.id}, false)
  {
    var lines', ids' := lines + [l], ids + {l.parsed.value.id};
    forall id | id in ids' ensures exists k :: 1 <= k <= count + 1 && lines'[k].parsed.value.id == id {
      if id == l.parsed.value.id {
        assert lines'[count + 1] == l;
      } else {
        var k :| 1 <= k <= count && lines[k].parsed.value.id == id;
        assert lines'[k] == lines[k];
      }
    }
  }

  lemma ManifestGrows(lines: seq<Line>, count: nat, ids: set<int>, l: Line)
    requires Prefix(lines, None, count, ids, false) && LineOk(l) && l.parsed.value.Manifest?
    ensures Prefix(lines + [l], l.parsed, count, ids, false)
  {
  }

  lemma CompletionGrows(lines: seq<Line>, manifest: Option<Rec>, count: nat, ids: set<int>, l: Line)
    requires Prefix(lines, manifest, count, ids, false) && manifest.Some? && LineOk(l)
    requires l.parsed.value == Complete(count)
    ensures Prefix(lines + [l], manifest, count, ids, true)
  {
    assert forall k :: 0 <= k < |lines| ==> (lines + [l])[k] == lines[k];
  }

  /** At the end of the input, being complete is being in the grammar. */
  lemma EndDecides(lines: seq<Line>, manifest: Option<Rec>, count: nat, ids: set<int>, complete: bool)
    requires Prefix(lines, manifest, count, ids, complete)
    ensures Grammar(lines) <==> manifest.Some? && complete && count <= MAX_EVENTS
    ensures Grammar(lines) ==> |lines| == count + 2
  {
  }

  method Verify(lines: seq<Line>) returns (r: Option<Summary>)
    ensures r.Some? <==> Grammar(lines)
    ensures r.Some? ==>
              var m := lines[0].parsed.value;
              r.value == Summary(m.format, m.generatedAt, |lines| - 2, m.incidentRef)
  {
    var manifest: Option<Rec> := None;
    var count := 0;
    var ids: set<int> := {};
    var complete := false;
    for k := 0 to |lines|
      invariant Prefix(lines[..k], manifest, count, ids, complete)
    {
      if Grammar(lines) {
        BadLineRejects(lines, k, manifest, count, ids, complete);
      }
      var line := lines[k];
      if complete || line.bytes == 0 || line.bytes > MAX_RECORD_BYTES {
        return None;
      }
      if line.parsed.None? || !SchemaOk(line.parsed.value) {
        return None;
      }
      match line.parsed.value {
        case Manifest(_, _, _, _) =>
          if manifest.Some? {
            return None;
          }
          ManifestGrows(lines[..k], count, ids, line);
          manifest := line.parsed;
        case Event(id, eventIncident) =>
          if manifest.None? {
            return None;
          }
          if count >= manifest.value.maxEvents || id in ids
             || (manifest.value.incidentRef.Some? && eventIncident != manifest.value.incidentRef) {
            return None;
          }
          EventGrows(lines[..k], manifest, count, ids, line);
          ids := ids + {id};
          count := count + 1;
        case Complete(eventCount) =>
          if manifest.None? || eventCount != count {
            return None;
          }
          CompletionGrows(lines[..k], manifest, count, ids, line);
          complete := true;
      }
      assert lines[..k + 1] == lines[..k] + [line];
    }
    assert lines[..|lines|] == lines;
    EndDecides(lines, manifest, count, ids, complete);
    if manifest.None? || !complete || count > MAX_EVENTS {
      return None;
    }
    return Some(Summary(manifest.value.format, manifest.value.generatedAt, count, manifest.value.incidentRef));
  }

  // ---- Edits ----

  /** The records of b at the given positions, in that order. */
  function Take(b: seq<Line>, at: seq<nat>): seq<Line>
    requires forall i :: 0 <= i < |at| ==> at[i] < |b|
  {
    seq(|at|, i requires 0 <= i < |at| => b[at[i]])
  }

  ghost predicate Increasing(at: seq<nat>) {
    forall i, j :: 0 <= i < j < |at| ==> at[i] < at[j]
  }

  lemma {:induction false} IncreasingGrows(at: seq<nat>, i: nat, j: nat)
    requires Increasing(at) && i <= j < |at|
    ensures at[i] + (j - i) <= at[j]
  {
    if i < j {
      IncreasingGrows(at, i, j - 1);
    }
  }

  /** Removing any records from an accepted export is detected: what is left is accepted if and only if
      nothing was removed. Read from the other side, an accepted export with any records inserted,
      repeated or appended is rejected. */
  lemma RemovalDetected(lines: seq<Line>, at: seq<nat>)
    requires Grammar(lines) && Increasing(at) && forall i :: 0 <= i < |at| ==> at[i] < |lines|
    ensures Grammar(Take(lines, at)) <==> |at| == |lines|
    ensures |at| == |lines| ==> Take(lines, at) == lines
  {
    var d := Take(lines, at);
    if |at| == |lines| {
      forall i | 0 <= i < |at| ensures at[i] == i {
        IncreasingGrows(at, 0, i);
        IncreasingGrows(at, i, |at| - 1);
      }
      assert d == lines;
    } else {
      assert |d| >= 1 ==> d[|d| - 1] == lines[at[|at| - 1]];
    }
  }

  function Without(lines: seq<Line>, k: nat): seq<Line>
    requires k < |lines|
  {
    lines[..k] + lines[k + 1..]
  }

  function Insert(lines: seq<Line>, k: nat, l: Line): seq<Line>
    requires k <= |lines|
  {
    lines[..k] + [l] + lines[k..]
  }

  lemma WithoutIsTake(lines: seq<Line>, k: nat) returns (at: seq<nat>)
    requires k < |lines|
    ensures Increasing(at) && |at| == |lines| - 1 && forall i :: 0 <= i < |at| ==> at[i] < |lines|
    ensures Take(lines, at) == Without(lines, k)
  {
    at := seq(|lines| - 1, i requires 0 <= i < |lines| - 1 => if i < k then i else i + 1);
  }

  /** Deleting any one record is detected. */
  lemma DeletionDetected(lines: seq<Line>, k: nat)
    requires Grammar(lines) && k < |lines|
    ensures !Grammar(Without(lines, k))
  {
    var at := WithoutIsTake(lines, k);
    RemovalDetected(lines, at);
  }

  /** No record, new or a copy, can be inserted anywhere. */
  lemma InsertionDetected(lines: seq<Line>, at: nat, l: Line)
    requires Grammar(lines) && at <= |lines|
    ensures !Grammar(Insert(lines, at, l))
  {
    var d := Insert(lines, at, l);
    assert Without(d, at) == lines;
    if Grammar(d) {
      DeletionDetected(d, at);
    }
  }

  /** No proper prefix of an accepted export is accepted. */
  lemma TruncationDetected(lines: seq<Line>, n: nat)
    requires Grammar(lines) && n < |lines|
    ensures !Grammar(lines[..n])
  {
    var at: seq<nat> := seq(n, i => i);
    assert Take(lines, at) == lines[..n];
    RemovalDetected(lines, at);
  }

  ghost predicate Permutation(at: seq<nat>, n: nat) {
    && |at| == n && (forall i :: 0 <= i < n ==> at[i] < n)
    && forall i, j :: 0 <= i < j < n ==> at[i] != at[j]
  }

  /** What the record structure can and cannot detect of a reordering: it is accepted if and only if
      the manifest stays first and the completion stays last; the events may come in any order. */
  lemma ReorderingAcceptedIff(lines: seq<Line>, at: seq<nat>)
    requires Grammar(lines) && Permutation(at, |lines|)
    ensures Grammar(Take(lines, at)) <==> at[0] == 0 && at[|at| - 1] == |lines| - 1
  {
    var d, last := Take(lines, at), |lines| - 1;
    assert d[0] == lines[at[0]] && d[last] == lines[at[last]];
    if at[0] == 0 && at[last] == last {
      forall k | 1 <= k < last ensures 1 <= at[k] < last && d[k] == lines[at[k]] {
        assert at[0] != at[k] && at[k] != at[last];
      }
      forall i, j | 1 <= i < j < last ensures d[i].parsed.value.id != d[j].parsed.value.id {
        assert at[i] != at[j];
      }
    }
  }
}
