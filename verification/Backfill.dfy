/** The backfill of encrypted envelopes for legacy personal data: keyset-cursor passes over two tables
    with one transaction for each subject. */
module Backfill {
  import opened Common
  import opened Chunks
  import opened Reruns

  datatype Value = Null | Text(text: string) | Other(json: string)

  datatype Kind = Candidate | Criminal

  /** A legacy row: a candidate profile or a criminal record. */
  datatype Subject = Subject(id: int, tenant: Option<int>, fields: map<string, Value>)

  datatype Item = Item(kind: Kind, subject: Subject)

  /** What an envelope is for. */
  datatype Key = Key(tenant: int, kind: Kind, subject: int, purpose: string)

  /** What a blind index is for. */
  datatype Slot = Slot(tenant: int, kind: Kind, subject: int, attribute: string)

  /** A stored row, by its cleartext: an encrypted envelope, or the keyed hash of a normalized value. */
  datatype Stored =
    | Envelope(key: Key, payload: seq<(string, Value)>, retired: bool)
    | Index(slot: Slot, value: string)

  const BATCH_SIZE := 100

  // ---- What a subject asks for ----

  /** The fields that carry a value. */
  function Defined(fields: map<string, Value>, names: seq<string>): seq<(string, Value)> {
    if names == [] then []
    else if names[0] in fields && fields[names[0]] !in {Null, Text("")} then
      [(names[0], fields[names[0]])] + Defined(fields, names[1..])
    else Defined(fields, names[1..])
  }

  /** A payload has a name with a value exactly if the field is listed and has a value that is neither null
      nor empty. */
  lemma {:induction false} DefinedExact(fields: map<string, Value>, names: seq<string>, name: string, value: Value)
    ensures (name, value) in Defined(fields, names) <==>
              && name in names && name in fields && fields[name] == value
              && value != Null && value != Text("")
  {
    if names != [] {
      DefinedExact(fields, names[1..], name, value);
      assert names == [names[0]] + names[1..];
    }
  }

  function Purposes(kind: Kind): seq<(string, seq<string>)> {
    match kind
    case Candidate =>
      [("identity", ["nin", "bvn", "dob", "passportNumber", "passportExpiry"]),
       ("contact", ["email", "phone"]),
       ("address", ["currentAddress", "addressHistory"])]
    case Criminal =>
      [("criminal_record", ["subjectName", "nin", "dob", "aliases", "offenceDescription", "offenceLocation",
                            "sentence", "warrantDetails"]),
       ("provider_payload", ["rawPayload"])]
  }

  predicate TenantValid(item: Item) {
    item.subject.tenant.Some? && item.subject.tenant.value >= 1
  }

  /** The attributes that get a blind index, and the fields they come from. */
  function Attributes(kind: Kind): seq<(string, string)> {
    match kind
    case Candidate =>
      [("nin", "nin"), ("bvn", "bvn"), ("passport_number", "passportNumber"), ("email", "email"), ("phone", "phone")]
    case Criminal => [("nin", "nin")]
  }

  function Upper(c: char): char {
    if 'a' <= c <= 'z' then c - 'a' + 'A' else c
  }

  predicate Kept(c: char) {
    'A' <= c <= 'Z' || '0' <= c <= '9' || c in {'@', '.', '+', '-'}
  }

  /** Upper case, and nothing but letters, digits and the four signs; white space goes with the rest. */
  function Normalize(s: string): string {
    if s == "" then "" else (if Kept(Upper(s[0])) then [Upper(s[0])] else []) + Normalize(s[1..])
  }

  /** Normalization works character by character: letters become upper case, digits and four signs stay, and
      everything else goes. */
  lemma {:induction false} NormalizeConcat(a: string, b: string)
    ensures Normalize(a + b) == Normalize(a) + Normalize(b)
  {
    var c := a + b;
    if a == [] {
      assert c == b;
    } else {
      assert c[0] == a[0] && c[1..] == a[1..] + b;
      NormalizeConcat(a[1..], b);
    }
  }

  lemma NormalizeOne(c: char)
    ensures 'a' <= c <= 'z' ==> Normalize([c]) == [c - 'a' + 'A']
    ensures 'A' <= c <= 'Z' || '0' <= c <= '9' || c in "@.+-" ==> Normalize([c]) == [c]
    ensures !('a' <= c <= 'z') && !('A' <= c <= 'Z') && !('0' <= c <= '9') && c !in "@.+-" ==> Normalize([c]) == []
  {
    assert [c][1..] == [] && Normalize([]) == [];
  }

  function Normalized(v: Value): string {
    if v.Text? then Normalize(v.text) else ""
  }

  function TenantOf(item: Item): int {
    if item.subject.tenant.Some? then item.subject.tenant.value else 0
  }

  function EnvelopeFor(item: Item, purpose: (string, seq<string>)): Stored {
    Envelope(Key(TenantOf(item), item.kind, item.subject.id, purpose.0), Defined(item.subject.fields, purpose.1), false)
  }

  function IndexFor(item: Item, attribute: (string, string)): Stored {
    Index(Slot(TenantOf(item), item.kind, item.subject.id, attribute.0),
          if attribute.1 in item.subject.fields then Normalized(item.subject.fields[attribute.1]) else "")
  }

  /** The rows one subject asks for, in order. */
  function RequestsOf(item: Item): seq<Stored> {
    FlatMap(p => [EnvelopeFor(item, p)], Purposes(item.kind)) + FlatMap(a => [IndexFor(item, a)], Attributes(item.kind))
  }

  function Requests(work: seq<Item>): seq<Stored> {
    FlatMap(RequestsOf, work)
  }

  // ---- Inserting ----

  predicate Empty(r: Stored) {
    match r
    case Envelope(_, payload, _) => payload == []
    case Index(_, value) => value == ""
  }

  /** The unique indexes: one active envelope for each key; one blind index for each slot, and one for
      each attribute value of a tenant. */
  predicate Clash(a: Stored, b: Stored) {
    if a.Envelope? && b.Envelope? then a.key == b.key && !a.retired && !b.retired
    else
      && a.Index? && b.Index? && a.slot.tenant == b.slot.tenant && a.slot.attribute == b.slot.attribute
      && ((a.slot.kind == b.slot.kind && a.slot.subject == b.slot.subject) || a.value == b.value)
  }

  predicate Conflicts(store: seq<Stored>, r: Stored) {
    exists i :: 0 <= i < |store| && Clash(store[i], r)
  }

  /** Nothing is stored for an empty row, and a stored row wins a conflict. */
  function Insert(store: seq<Stored>, r: Stored): seq<Stored> {
    if Empty(r) || Conflicts(store, r) then store else store + [r]
  }

  function InsertAll(store: seq<Stored>, rs: seq<Stored>): seq<Stored> {
    if rs == [] then store else Insert(InsertAll(store, rs[..|rs| - 1]), rs[|rs| - 1])
  }

  /** The store after the subjects of `work` have been committed. */
  function Fill(store: seq<Stored>, work: seq<Item>): seq<Stored> {
    Fold(FillItem, store, work)
  }

  function FillItem(store: seq<Stored>, item: Item): seq<Stored> {
    InsertAll(store, RequestsOf(item))
  }

  lemma {:induction false} FillIsInsertAll(store: seq<Stored>, work: seq<Item>)
    ensures Fill(store, work) == InsertAll(store, Requests(work))
  {
    if work != [] {
      FillIsInsertAll(store, work[..|work| - 1]);
      InsertAllConcat(store, Requests(work[..|work| - 1]), RequestsOf(work[|work| - 1]));
    }
  }

  lemma {:induction false} InsertAllConcat(store: seq<Stored>, a: seq<Stored>, b: seq<Stored>)
    ensures InsertAll(store, a + b) == InsertAll(InsertAll(store, a), b)
  {
    if b == [] {
      assert a + b == a;
    } else {
      InsertAllConcat(store, a, b[..|b| - 1]);
      assert (a + b)[..|a + b| - 1] == a + b[..|b| - 1];
    }
  }

  predicate NotRetired(r: Stored) {
    r.Envelope? ==> !r.retired
  }

  /** Nothing asks for a retired row. */
  ghost predicate Proper(rs: seq<Stored>) {
    forall r :: r in rs ==> NotRetired(r)
  }

  /** Inserting only appends, and everything asked for would conflict afterwards. */
  lemma {:induction false} InsertAllCovers(store: seq<Stored>, rs: seq<Stored>)
    requires Proper(rs)
    ensures store <= InsertAll(store, rs)
    ensures forall i :: 0 <= i < |rs| && !Empty(rs[i]) ==> Conflicts(InsertAll(store, rs), rs[i])
  {
    if rs != [] {
      var n := |rs| - 1;
      assert forall i :: 0 <= i < n ==> rs[..n][i] == rs[i];
      assert rs[n] in rs && forall r :: r in rs[..n] ==> r in rs;
      InsertAllCovers(store, rs[..n]);
      InsertCovers(InsertAll(store, rs[..n]), rs[n]);
    }
  }

  lemma InsertCovers(store: seq<Stored>, r: Stored)
    requires NotRetired(r)
    ensures !Empty(r) ==> Conflicts(Insert(store, r), r)
    ensures forall x :: Conflicts(store, x) ==> Conflicts(Insert(store, r), x)
  {
    var after := Insert(store, r);
    assert !Empty(r) && !Conflicts(store, r) ==> Clash(after[|store|], r);
    forall x | Conflicts(store, x) ensures Conflicts(after, x) {
      var i :| 0 <= i < |store| && Clash(store[i], x);
      assert after[i] == store[i];
    }
  }

  lemma {:induction false} InsertAllIdle(store: seq<Stored>, rs: seq<Stored>)
    requires forall i :: 0 <= i < |rs| && !Empty(rs[i]) ==> Conflicts(store, rs[i])
    ensures InsertAll(store, rs) == store
  {
    if rs != [] {
      assert forall i :: 0 <= i < |rs| - 1 ==> rs[..|rs| - 1][i] == rs[i];
      InsertAllIdle(store, rs[..|rs| - 1]);
    }
  }

  lemma RequestIsProper(item: Item)
    ensures Proper(RequestsOf(item))
  {
    var f := (p: (string, seq<string>)) => [EnvelopeFor(item, p)];
    var g := (a: (string, string)) => [IndexFor(item, a)];
    assert forall p :: f(p) == [EnvelopeFor(item, p)];
    assert forall a :: g(a) == [IndexFor(item, a)];
    FlatMapForm(f, Purposes(item.kind), NotRetired);
    FlatMapForm(g, Attributes(item.kind), NotRetired);
    assert RequestsOf(item) == FlatMap(f, Purposes(item.kind)) + FlatMap(g, Attributes(item.kind));
  }

  lemma RequestsAreProper(work: seq<Item>)
    ensures Proper(Requests(work))
  {
    forall item | item in work ensures forall r :: r in RequestsOf(item) ==> NotRetired(r) {
      RequestIsProper(item);
    }
    FlatMapForm(RequestsOf, work, NotRetired);
  }

  // ---- Crashes and reruns ----

  lemma InsertAgain(store: seq<Stored>, a: seq<Stored>, b: seq<Stored>)
    requires Proper(a)
    ensures InsertAll(InsertAll(store, a), a + b) == InsertAll(store, a + b)
  {
    var store' := InsertAll(store, a);
    InsertAllConcat(store', a, b);
    InsertAllConcat(store, a, b);
    InsertAllCovers(store, a);
    InsertAllIdle(store', a);
  }

  lemma FillAgain(store: seq<Stored>, head: seq<Item>, tail: seq<Item>)
    ensures Fill(Fill(store, head), head + tail) == Fill(store, head + tail)
  {
    FlatMapConcat(RequestsOf, head, tail);
    RequestsAreProper(head);
    InsertAgain(store, Requests(head), Requests(tail));
    FillIsInsertAll(store, head);
    FillIsInsertAll(store, head + tail);
    FillIsInsertAll(Fill(store, head), head + tail);
  }

  /** Any number of interrupted runs followed by a complete one leave the same store as one complete
      run. */
  lemma CrashesAndRerun(store: seq<Stored>, work: seq<Item>, stores: seq<seq<Stored>>)
    requires InterruptedRuns(FillItem, store, work, stores)
    ensures Fill(if stores == [] then store else stores[|stores| - 1], work) == Fill(store, work)
  {
    forall s, a, b ensures Fold(FillItem, Fold(FillItem, s, a), a + b) == Fold(FillItem, s, a + b) {
      FillAgain(s, a, b);
    }
    Reruns.CrashesAndRerun(FillItem, store, work, stores);
  }

  ghost predicate Unique(store: seq<Stored>) {
    forall i, j :: 0 <= i < j < |store| ==> !Clash(store[i], store[j])
  }

  lemma {:induction false} InsertAllUnique(store: seq<Stored>, rs: seq<Stored>)
    requires Unique(store)
    ensures Unique(InsertAll(store, rs))
  {
    if rs != [] {
      InsertAllUnique(store, rs[..|rs| - 1]);
    }
  }

  /** Every new row is one that was asked for. */
  lemma {:induction false} InsertAllAdds(store: seq<Stored>, rs: seq<Stored>, i: nat)
    requires |store| <= i < |InsertAll(store, rs)|
    ensures InsertAll(store, rs)[i] in rs && !Empty(InsertAll(store, rs)[i])
  {
    var n := |rs| - 1;
    if i < |InsertAll(store, rs[..n])| {
      InsertAllAdds(store, rs[..n], i);
    } else {
      assert rs[n] in rs;
    }
  }

  lemma RequestCovered(store: seq<Stored>, work: seq<Item>, item: Item, r: Stored)
    requires Unique(store) && item in work && r in RequestsOf(item) && !Empty(r)
    ensures store <= Fill(store, work) && Unique(Fill(store, work)) && Conflicts(Fill(store, work), r)
  {
    RequestsAreProper(work);
    FillIsInsertAll(store, work);
    InsertAllCovers(store, Requests(work));
    InsertAllUnique(store, Requests(work));
    FlatMapHas(RequestsOf, work, item, r);
    var i :| 0 <= i < |Requests(work)| && Requests(work)[i] == r;
  }

  predicate IsActiveFor(row: Stored, key: Key) {
    row.Envelope? && row.key == key && !row.retired
  }

  /** After a complete run every subject has exactly one active envelope for each purpose with a
      payload, and what was stored before is still there. */
  lemma ExactlyOneActive(store: seq<Stored>, work: seq<Item>, item: Item, purpose: (string, seq<string>))
    requires Unique(store) && item in work && purpose in Purposes(item.kind) && !Empty(EnvelopeFor(item, purpose))
    ensures store <= Fill(store, work)
    ensures var full, key := Fill(store, work), EnvelopeFor(item, purpose).key;
            && (exists i :: 0 <= i < |full| && IsActiveFor(full[i], key))
            && (forall i, j :: 0 <= i < j < |full| && IsActiveFor(full[i], key) ==> !IsActiveFor(full[j], key))
  {
    var r := EnvelopeFor(item, purpose);
    FlatMapHas(p => [EnvelopeFor(item, p)], Purposes(item.kind), purpose, r);
    RequestCovered(store, work, item, r);
    var i :| 0 <= i < |Fill(store, work)| && Clash(Fill(store, work)[i], r);
    assert IsActiveFor(Fill(store, work)[i], r.key);
    assert forall i, j :: 0 <= i < j < |Fill(store, work)| ==> !Clash(Fill(store, work)[i], Fill(store, work)[j]);
  }

  /** An envelope stored by a run: its subject and purpose, and a payload with exactly the listed fields that
      have a value. */
  lemma NewEnvelope(store: seq<Stored>, work: seq<Item>, x: Stored) returns (item: Item, purpose: (string, seq<string>))
    requires x in Fill(store, work) && x !in store && x.Envelope?
    ensures item in work && purpose in Purposes(item.kind) && !x.retired
    ensures x.key == Key(TenantOf(item), item.kind, item.subject.id, purpose.0)
    ensures forall name, value :: (name, value) in x.payload <==>
              && name in purpose.1 && name in item.subject.fields && item.subject.fields[name] == value
              && value != Null && value != Text("")
  {
    FillAdds(store, work, x);
    item := FlatMapFrom(RequestsOf, work, x);
    purpose := EnvelopeRequested(item, x);
    forall name, value ensures (name, value) in x.payload <==>
                && name in purpose.1 && name in item.subject.fields && item.subject.fields[name] == value
                && value != Null && value != Text("")
    {
      DefinedExact(item.subject.fields, purpose.1, name, value);
    }
  }

  lemma EnvelopeRequested(item: Item, r: Stored) returns (purpose: (string, seq<string>))
    requires r in RequestsOf(item) && r.Envelope?
    ensures purpose in Purposes(item.kind) && r == EnvelopeFor(item, purpose)
  {
    var f := (p: (string, seq<string>)) => [EnvelopeFor(item, p)];
    var g := (a: (string, string)) => [IndexFor(item, a)];
    FlatMapForm(g, Attributes(item.kind), (x: Stored) => x.Index?);
    assert RequestsOf(item) == FlatMap(f, Purposes(item.kind)) + FlatMap(g, Attributes(item.kind));
    purpose := FlatMapFrom(f, Purposes(item.kind), r);
  }

  predicate HoldsValue(row: Stored, r: Stored)
    requires r.Index?
  {
    row.Index? && row.slot.tenant == r.slot.tenant && row.slot.attribute == r.slot.attribute && row.value == r.value
  }

  /** After a complete run a subject's attribute is indexed, under its own slot or, if its slot has no
      index, under another subject of the tenant with the same value: of subjects that share a value
      only one is ever found by it. */
  lemma IndexedOnce(store: seq<Stored>, work: seq<Item>, item: Item, attribute: (string, string))
    requires Unique(store) && item in work && attribute in Attributes(item.kind) && !Empty(IndexFor(item, attribute))
    ensures var full, r := Fill(store, work), IndexFor(item, attribute);
            exists i :: 0 <= i < |full| && full[i].Index? && (full[i].slot == r.slot || HoldsValue(full[i], r))
    ensures var full, r := Fill(store, work), IndexFor(item, attribute);
            forall i, j :: 0 <= i < j < |full| && HoldsValue(full[i], r) ==> !HoldsValue(full[j], r)
  {
    var r := IndexFor(item, attribute);
    FlatMapHas(a => [IndexFor(item, a)], Attributes(item.kind), attribute, r);
    RequestCovered(store, work, item, r);
    var full := Fill(store, work);
    var i :| 0 <= i < |full| && Clash(full[i], r);
    assert full[i].Index? && (full[i].slot == r.slot || HoldsValue(full[i], r));
    assert forall i, j :: 0 <= i < j < |full| ==> !Clash(full[i], full[j]);
  }

  /** No subject occurs twice. */
  ghost predicate Identified(work: seq<Item>) {
    forall i, j :: 0 <= i < j < |work| ==> work[i].kind != work[j].kind || work[i].subject.id != work[j].subject.id
  }

  lemma IndexRequested(item: Item, r: Stored) returns (attribute: (string, string))
    requires r in RequestsOf(item) && r.Index?
    ensures attribute in Attributes(item.kind) && r == IndexFor(item, attribute)
  {
    var f := (p: (string, seq<string>)) => [EnvelopeFor(item, p)];
    var g := (a: (string, string)) => [IndexFor(item, a)];
    FlatMapForm(f, Purposes(item.kind), (x: Stored) => x.Envelope?);
    assert RequestsOf(item) == FlatMap(f, Purposes(item.kind)) + FlatMap(g, Attributes(item.kind));
    attribute := FlatMapFrom(g, Attributes(item.kind), r);
  }

  lemma IndexIsRequested(item: Item, attribute: (string, string))
    requires attribute in Attributes(item.kind)
    ensures IndexFor(item, attribute) in RequestsOf(item)
  {
    FlatMapHas(a => [IndexFor(item, a)], Attributes(item.kind), attribute, IndexFor(item, attribute));
  }

  /** Subject number i of the work asks for the blind index r of one of its attributes. */
  ghost predicate Asks(work: seq<Item>, i: nat, attribute: (string, string), r: Stored) {
    && i < |work| && attribute in Attributes(work[i].kind) && r == IndexFor(work[i], attribute)
    && r.Index? && !Empty(r)
  }

  lemma AsksPrefix(work: seq<Item>, n: nat, i: nat, attribute: (string, string), r: Stored)
    requires n <= |work|
    ensures Asks(work[..n], i, attribute, r) <==> i < n && Asks(work, i, attribute, r)
  {
    assert i < n ==> work[..n][i] == work[i];
  }

  lemma IdentifiedPrefix(work: seq<Item>, n: nat)
    requires Identified(work) && n <= |work|
    ensures Identified(work[..n])
  {
  }

  lemma FillUnique(store: seq<Stored>, work: seq<Item>)
    requires Unique(store)
    ensures Unique(Fill(store, work)) && store <= Fill(store, work)
  {
    FillIsInsertAll(store, work);
    RequestsAreProper(work);
    InsertAllCovers(store, Requests(work));
    InsertAllUnique(store, Requests(work));
  }

  lemma FillAdds(store: seq<Stored>, work: seq<Item>, x: Stored)
    requires x in Fill(store, work) && x !in store
    ensures x in Requests(work) && !Empty(x)
  {
    FillIsInsertAll(store, work);
    RequestsAreProper(work);
    InsertAllCovers(store, Requests(work));
    var n :| 0 <= n < |Fill(store, work)| && Fill(store, work)[n] == x;
    InsertAllAdds(store, Requests(work), n);
  }

  lemma NewIsFree(store: seq<Stored>, full: seq<Stored>, x: Stored)
    requires Unique(full) && store <= full && x in full && x !in store
    ensures !Conflicts(store, x)
  {
    var n :| 0 <= n < |full| && full[n] == x;
    assert forall i :: 0 <= i < |store| ==> full[i] == store[i];
  }

  /** A blind index stored by a run: who asked for it, and that nothing stored before was in its way. */
  lemma NewIndex(store: seq<Stored>, work: seq<Item>, x: Stored) returns (j: nat, attribute: (string, string))
    requires Unique(store) && x in Fill(store, work) && x !in store && x.Index?
    ensures Asks(work, j, attribute, x) && !Conflicts(store, x)
  {
    FillUnique(store, work);
    FillAdds(store, work, x);
    NewIsFree(store, Fill(store, work), x);
    var item := FlatMapFrom(RequestsOf, work, x);
    attribute := IndexRequested(item, x);
    j :| 0 <= j < |work| && work[j] == item;
  }

  lemma Answer(store: seq<Stored>, work: seq<Item>, i: nat, attribute: (string, string), r: Stored)
    returns (x: Stored)
    requires Unique(store) && Asks(work, i, attribute, r) && !Conflicts(store, r)
    ensures x in Fill(store, work) && x !in store && Clash(x, r)
  {
    var full := Fill(store, work);
    IndexIsRequested(work[i], attribute);
    RequestCovered(store, work, work[i], r);
    var n :| 0 <= n < |full| && Clash(full[n], r);
    x := full[n];
  }

  lemma ClashSharesValue(work: seq<Item>, j: nat, b: (string, string), x: Stored, i: nat, a: (string, string),
                         r: Stored)
    requires Identified(work) && j <= i && Asks(work, j, b, x) && Asks(work, i, a, r) && Clash(x, r)
    ensures HoldsValue(x, r) && (j == i ==> x == r)
  {
  }

  /** A request that meets nothing in the store is answered by an index of the run: its own, or an earlier
      one of the same value. */
  lemma FreeAnswered(store: seq<Stored>, work: seq<Item>, i: nat, attribute: (string, string), r: Stored)
    returns (j: nat, other: (string, string), x: Stored)
    requires Unique(store) && Identified(work) && Asks(work, i, attribute, r) && !Conflicts(store, r)
    ensures j <= i && Asks(work, j, other, x) && x in Fill(store, work)
    ensures HoldsValue(x, r) && (j == i ==> x == r) && !Conflicts(store, x)
  {
    var head := work[..i + 1];
    IdentifiedPrefix(work, i + 1);
    AsksPrefix(work, i + 1, i, attribute, r);
    x := Answer(store, head, i, attribute, r);
    j, other := NewIndex(store, head, x);
    AsksPrefix(work, i + 1, j, other, x);
    ClashSharesValue(work, j, other, x, i, attribute, r);
    PrefixStored(store, work, i + 1, x);
  }

  lemma PrefixStored(store: seq<Stored>, work: seq<Item>, n: nat, r: Stored)
    requires n <= |work| && r in Fill(store, work[..n])
    ensures r in Fill(store, work)
  {
    assert work[..n] + work[n..] == work;
    ConcatStored(store, work[..n], work[n..], r);
  }

  lemma ConcatStored(store: seq<Stored>, a: seq<Item>, b: seq<Item>, r: Stored)
    requires r in Fill(store, a)
    ensures r in Fill(store, a + b)
  {
    FillConcat(store, a, b);
    FillKeeps(Fill(store, a), b, r);
  }

  lemma FillConcat(store: seq<Stored>, a: seq<Item>, b: seq<Item>)
    ensures Fill(store, a + b) == Fill(Fill(store, a), b)
  {
    FoldConcat(FillItem, store, a, b);
  }

  lemma FillKeeps(store: seq<Stored>, work: seq<Item>, r: Stored)
    requires r in store
    ensures r in Fill(store, work)
  {
    RequestsAreProper(work);
    FillIsInsertAll(store, work);
    InsertAllCovers(store, Requests(work));
  }

  /** An earlier subject asks for the same value of the attribute in the tenant, and nothing stored keeps it
      from being indexed. */
  ghost predicate Taken(store: seq<Stored>, work: seq<Item>, i: nat, r: Stored)
    requires r.Index?
  {
    exists j: nat, b, x :: j < i && Asks(work, j, b, x) && HoldsValue(x, r) && !Conflicts(store, x)
  }

  /** When a subject is found by its own attribute after a complete run: if it was indexed before, or
      nothing stored is in the way and no earlier subject takes the value. */
  lemma FoundIff(store: seq<Stored>, work: seq<Item>, i: nat, attribute: (string, string), r: Stored)
    requires Unique(store) && Identified(work) && Asks(work, i, attribute, r)
    ensures r in Fill(store, work) <==> r in store || (!Conflicts(store, r) && !Taken(store, work, i, r))
  {
    FillUnique(store, work);
    if r in store {
      FillKeeps(store, work, r);
    } else if r in Fill(store, work) {
      NewIsFree(store, Fill(store, work), r);
      NotTaken(store, work, i, attribute, r);
    } else if !Conflicts(store, r) {
      var j, b, x := FreeAnswered(store, work, i, attribute, r);
      assert Taken(store, work, i, r);
    }
  }

  lemma NotTaken(store: seq<Stored>, work: seq<Item>, i: nat, attribute: (string, string), r: Stored)
    requires Unique(store) && Identified(work) && Asks(work, i, attribute, r) && r in Fill(store, work)
    ensures !Taken(store, work, i, r)
  {
    FillUnique(store, work);
    forall j: nat, b, x | j < i && Asks(work, j, b, x) && HoldsValue(x, r) && !Conflicts(store, x) ensures false {
      var k, c, y := FreeAnswered(store, work, j, b, x);
      OneClashing(Fill(store, work), y, r);
      OtherSlots(work, k, c, y, i, attribute, r);
    }
  }

  lemma OtherSlots(work: seq<Item>, j: nat, b: (string, string), x: Stored, i: nat, a: (string, string), r: Stored)
    requires Identified(work) && j < i && Asks(work, j, b, x) && Asks(work, i, a, r)
    ensures x != r
  {
  }

  lemma OneClashing(store: seq<Stored>, a: Stored, b: Stored)
    requires Unique(store) && a in store && b in store && Clash(a, b) && Clash(b, a)
    ensures a == b
  {
    var i :| 0 <= i < |store| && store[i] == a;
    var j :| 0 <= j < |store| && store[j] == b;
  }

  /** No two subjects of a tenant share a value of an attribute. */
  ghost predicate NoneShared(work: seq<Item>) {
    forall i: nat, j: nat, a, b, x, y :: i < j && Asks(work, i, a, x) && Asks(work, j, b, y) ==> !HoldsValue(x, y)
  }

  ghost predicate AllFound(store: seq<Stored>, work: seq<Item>) {
    forall i: nat, a, r :: Asks(work, i, a, r) ==> r in Fill(store, work)
  }

  /** Whatever is asked for is stored already, or nothing stored is in its way. */
  ghost predicate NoneBlocked(store: seq<Stored>, work: seq<Item>) {
    forall i: nat, a, r :: Asks(work, i, a, r) ==> r in store || !Conflicts(store, r)
  }

  /** After a complete run everybody is found by every attribute with a value if and only if no two subjects
      share one and nothing stored before is in the way of an index. */
  lemma AllFoundIff(store: seq<Stored>, work: seq<Item>)
    requires Unique(store) && Identified(work)
    ensures AllFound(store, work) <==> NoneShared(work) && NoneBlocked(store, work)
  {
    if AllFound(store, work) {
      FoundAlone(store, work);
    }
    if NoneShared(work) && NoneBlocked(store, work) {
      forall i: nat, a, r | Asks(work, i, a, r) ensures r in Fill(store, work) {
        FoundIff(store, work, i, a, r);
      }
    }
  }

  lemma FoundAlone(store: seq<Stored>, work: seq<Item>)
    requires Unique(store) && Identified(work) && AllFound(store, work)
    ensures NoneShared(work) && NoneBlocked(store, work)
  {
    forall i: nat, a, r | Asks(work, i, a, r) ensures r in store || !Conflicts(store, r) {
      FoundIff(store, work, i, a, r);
    }
    FillUnique(store, work);
    forall i: nat, j: nat, a, b, x, y | i < j && Asks(work, i, a, x) && Asks(work, j, b, y) ensures !HoldsValue(x, y) {
      OtherSlots(work, i, a, x, j, b, y);
      if HoldsValue(x, y) {
        OneClashing(Fill(store, work), x, y);
      }
    }
  }

  function WithNin(id: int, nin: string): Item {
    Item(Candidate, Subject(id, Some(1), map["nin" := Text(nin)]))
  }

  const TWINS := [WithNin(1, "7"), WithNin(2, "7")]

  lemma TwinAsks(i: nat)
    requires i < 2
    ensures Asks(TWINS, i, ("nin", "nin"), Index(Slot(1, Candidate, i + 1, "nin"), "7"))
  {
    assert Normalize("7") == "7" + Normalize("") == "7";
  }

  /** Two subjects with one nin: only the first is found by it. */
  lemma SecondNotFound()
    ensures var first, second := Index(Slot(1, Candidate, 1, "nin"), "7"), Index(Slot(1, Candidate, 2, "nin"), "7");
            && Asks(TWINS, 0, ("nin", "nin"), first) && first in Fill([], TWINS)
            && Asks(TWINS, 1, ("nin", "nin"), second) && second !in Fill([], TWINS)
  {
    var first, second := Index(Slot(1, Candidate, 1, "nin"), "7"), Index(Slot(1, Candidate, 2, "nin"), "7");
    TwinAsks(0);
    TwinAsks(1);
    FoundIff([], TWINS, 0, ("nin", "nin"), first);
    FoundIff([], TWINS, 1, ("nin", "nin"), second);
  }

  // ---- The keyset cursor ----

  /** A table in the order of its primary key. */
  ghost predicate Sorted(table: seq<Subject>) {
    forall i, j :: 0 <= i < j < |table| ==> table[i].id < table[j].id
  }

  predicate Selected(kind: Kind, r: Subject, cursor: int) {
    r.id > cursor && (kind == Criminal ==> r.tenant.Some?)
  }

  /** What the query would return without its limit. */
  function After(table: seq<Subject>, kind: Kind, cursor: int): seq<Subject> {
    if table == [] then []
    else (if Selected(kind, table[0], cursor) then [table[0]] else []) + After(table[1..], kind, cursor)
  }

  lemma {:induction false} AfterSame(table: seq<Subject>, kind: Kind, c: int, d: int)
    requires forall i :: 0 <= i < |table| ==> table[i].id > c && table[i].id > d
    ensures After(table, kind, c) == After(table, kind, d)
  {
    if table != [] {
      AfterSame(table[1..], kind, c, d);
    }
  }

  /** Moving the cursor to the i-th row found leaves exactly the rows found after it. */
  lemma {:induction false} CursorMoves(table: seq<Subject>, kind: Kind, c: int, i: nat)
    requires Sorted(table) && i < |After(table, kind, c)|
    ensures After(table, kind, c)[i].id > c
    ensures After(table, kind, After(table, kind, c)[i].id) == After(table, kind, c)[i + 1..]
    ensures After(table, kind, c)[i] in table
  {
    var found := After(table[1..], kind, c);
    if !Selected(kind, table[0], c) {
      CursorMoves(table[1..], kind, c, i);
      PastFirst(table, kind, found[i]);
    } else if i == 0 {
      AfterSame(table[1..], kind, c, table[0].id);
      ConsDrop(table[0], found, 0);
    } else {
      CursorMoves(table[1..], kind, c, i - 1);
      PastFirst(table, kind, found[i - 1]);
      ConsDrop(table[0], found, i);
    }
  }

  lemma ConsDrop<T>(x: T, s: seq<T>, i: nat)
    requires i <= |s|
    ensures ([x] + s)[i + 1..] == s[i..] && (i > 0 ==> ([x] + s)[i] == s[i - 1])
  {
  }

  /** A cursor at a later row is past the first one. */
  lemma PastFirst(table: seq<Subject>, kind: Kind, r: Subject)
    requires Sorted(table) && table != [] && r in table[1..]
    ensures r in table && After(table, kind, r.id) == After(table[1..], kind, r.id)
  {
    FoundLater(table, r);
  }

  lemma FoundLater(table: seq<Subject>, r: Subject)
    requires Sorted(table) && table != [] && r in table[1..]
    ensures r in table && r.id > table[0].id
  {
    var k :| 0 <= k < |table| - 1 && table[1..][k] == r;
    assert table[k + 1] == r;
  }

  /** The pass finds every subject past the cursor, once each, in id order. */
  lemma {:induction false} AfterExact(table: seq<Subject>, kind: Kind, c: int)
    requires Sorted(table)
    ensures Sorted(After(table, kind, c))
    ensures forall r :: r in After(table, kind, c) <==>
              r in table && r.id > c && (kind == Criminal ==> r.tenant != None)
  {
    if table != [] {
      AfterExact(table[1..], kind, c);
      var rest := After(table[1..], kind, c);
      forall k | 0 <= k < |rest| ensures rest[k].id > table[0].id {
        assert rest[k] in table[1..];
        FoundLater(table, rest[k]);
      }
      assert table == [table[0]] + table[1..];
    }
  }

  function Items(kind: Kind, rows: seq<Subject>): (items: seq<Item>)
    ensures |items| == |rows| && forall i :: 0 <= i < |rows| ==> items[i] == Item(kind, rows[i])
  {
    seq(|rows|, i requires 0 <= i < |rows| => Item(kind, rows[i]))
  }

  lemma ItemsPrefix(kind: Kind, rows: seq<Subject>, all: seq<Subject>)
    requires rows <= all
    ensures Items(kind, rows) <= Items(kind, all)
  {
    assert forall i :: 0 <= i < |rows| ==> Items(kind, rows)[i] == Items(kind, all)[i];
  }

  function Found(table: seq<Subject>, kind: Kind, cursor: int): seq<Item> {
    Items(kind, After(table, kind, cursor))
  }

  lemma FoundMoves(table: seq<Subject>, kind: Kind, n: nat)
    requires Sorted(table) && n < |Found(table, kind, 0)|
    ensures Found(table, kind, Found(table, kind, 0)[n].subject.id) == Found(table, kind, 0)[n + 1..]
  {
    CursorMoves(table, kind, 0, n);
  }

  /** What a run has to do: the candidate profiles, then the criminal records that have a tenant. */
  function Work(candidates: seq<Subject>, criminals: seq<Subject>): seq<Item> {
    Found(candidates, Candidate, 0) + Found(criminals, Criminal, 0)
  }

  /** A run finds no subject twice. */
  lemma WorkIdentified(candidates: seq<Subject>, criminals: seq<Subject>)
    requires Sorted(candidates) && Sorted(criminals)
    ensures Identified(Work(candidates, criminals))
  {
    AfterExact(candidates, Candidate, 0);
    AfterExact(criminals, Criminal, 0);
  }

  // ---- The script ----

  /** One run: its connection, and what becomes of its remote calls. A call that throws ends the run; a
      commit that throws may have taken effect. The process dies after `life` calls. */
  class Script {
    var store: seq<Stored>
    var working: seq<Stored>
    var calls: nat
    const fate: nat -> Outcome
    const life: nat

    constructor (store: seq<Stored>, fate: nat -> Outcome, life: nat)
      ensures this.store == store && calls == 0 && this.fate == fate && this.life == life
    {
      this.store, working, calls, this.fate, this.life := store, store, 0, fate, life;
    }

    /** Some call of the range threw, or the process died. */
    ghost predicate Failed(from: nat, to: nat) {
      to >= life || exists k :: from <= k < to && fate(k).Fails?
    }

    method Remote() returns (ok: bool, applied: bool)
      modifies this`calls
      ensures old(calls) <= calls && (!ok ==> Failed(old(calls), calls))
      ensures ok ==> applied
    {
      if calls >= life {
        return false, false;
      }
      ok, applied := fate(calls).Works?, Applied(fate, calls);
      calls := calls + 1;
      assert !ok ==> fate(calls - 1).Fails?;
    }

    /** Fetches the active key, encrypts or hashes, and inserts, unless there is nothing to store. */
    method InsertRow(r: Stored) returns (ok: bool)
      modifies this`calls, this`working
      ensures old(calls) <= calls && (!ok ==> Failed(old(calls), calls))
      ensures ok ==> working == Insert(old(working), r)
    {
      if Empty(r) {
        return true;
      }
      var applied;
      ok, applied := Remote();
      if ok {
        ok, applied := Remote();
      }
      if ok {
        ok, applied := Remote();
      }
      if ok {
        working := Insert(working, r);
      }
    }

    /** The rows of one subject, in an open transaction. */
    method InsertRows(requests: seq<Stored>) returns (ok: bool)
      modifies this`calls, this`working
      ensures old(calls) <= calls && (!ok ==> Failed(old(calls), calls))
      ensures ok ==> working == InsertAll(old(working), requests)
    {
      ok := true;
      for i := 0 to |requests|
        invariant old(calls) <= calls && working == InsertAll(old(working), requests[..i])
      {
        ok := InsertRow(requests[i]);
        if !ok {
          return;
        }
        assert requests[..i + 1][..i] == requests[..i];
      }
      assert requests[..|requests|] == requests;
    }

    /** One transaction for one subject: all of its rows or none. */
    method FillSubject(item: Item) returns (ok: bool)
      modifies this
      ensures old(calls) <= calls && (!ok ==> Failed(old(calls), calls))
      ensures ok ==> store == Fill(old(store), [item])
      ensures !ok ==> store in {old(store), Fill(old(store), [item])}
    {
      var applied;
      ok, applied := Remote();
      if !ok {
        return;
      }
      working := store;
      ok := InsertRows(RequestsOf(item));
      if !ok {
        return;
      }
      FoldOne(FillItem, store, item);
      ok, applied := Remote();
      if applied {
        store := working;
      }
    }

    /** The batch query. */
    method Select(table: seq<Subject>, kind: Kind, cursor: int) returns (ok: bool, rows: seq<Subject>)
      modifies this`calls
      ensures old(calls) <= calls && (!ok ==> Failed(old(calls), calls))
      ensures ok ==> Items(kind, rows) <= Found(table, kind, cursor)
      ensures ok && rows == [] ==> Found(table, kind, cursor) == []
      ensures |rows| <= BATCH_SIZE
    {
      var applied;
      rows := [];
      ok, applied := Remote();
      if ok {
        rows := Scan(table, kind, cursor);
        ItemsPrefix(kind, rows, After(table, kind, cursor));
      }
    }

    method Scan(table: seq<Subject>, kind: Kind, cursor: int) returns (rows: seq<Subject>)
      ensures rows <= After(table, kind, cursor) && |rows| <= BATCH_SIZE
      ensures rows == [] ==> After(table, kind, cursor) == []
    {
      rows := [];
      var i := 0;
      while i < |table| && |rows| < BATCH_SIZE
        invariant 0 <= i <= |table| && |rows| <= BATCH_SIZE
        invariant After(table, kind, cursor) == rows + After(table[i..], kind, cursor)
      {
        var rest := table[i..];
        assert rest[0] == table[i] && rest[1..] == table[i + 1..];
        if Selected(kind, table[i], cursor) {
          AppendAssociative(rows, [table[i]], After(rest[1..], kind, cursor));
          rows := rows + [table[i]];
        }
        i := i + 1;
      }
    }

    /** One table, in batches from cursor 0; the first `done` subjects found have been completed. A run
        in which no call fails only stops early at a subject without a valid tenant. */
    method Pass(table: seq<Subject>, kind: Kind) returns (ok: bool, ghost done: nat)
      requires Sorted(table)
      modifies this
      ensures old(calls) <= calls && Progress(Found(table, kind, 0), old(store), done, store)
      ensures ok ==> done == |Found(table, kind, 0)|
      ensures !ok ==> Failed(old(calls), calls) || StopsAt(Found(table, kind, 0), done)
    {
      ghost var work, begun := Found(table, kind, 0), store;
      var cursor := 0;
      done := 0;
      assert work[..0] == [];
      while true
        invariant old(calls) <= calls && Progress(work, begun, done, store)
        invariant Found(table, kind, cursor) == work[done..]
        decreases |work| - done
      {
        var rows;
        ok, rows := Select(table, kind, cursor);
        if !ok || rows == [] {
          return;
        }
        assert forall i :: 0 <= i < |rows| ==> Items(kind, rows)[i] == work[done..][i];
        ok, cursor, done := FillBatch(table, kind, rows, cursor, work, begun, done);
        if !ok {
          return;
        }
      }
    }

    /** A fetched batch; the cursor follows the last subject completed. */
    method FillBatch(table: seq<Subject>, kind: Kind, rows: seq<Subject>, start: int,
                     ghost work: seq<Item>, ghost begun: seq<Stored>, ghost base: nat)
      returns (ok: bool, cursor: int, ghost done: nat)
      requires Sorted(table) && work == Found(table, kind, 0) && Progress(work, begun, base, store)
      requires Found(table, kind, start) == work[base..] && base + |rows| <= |work|
      requires forall i :: 0 <= i < |rows| ==> work[base + i] == Item(kind, rows[i])
      modifies this
      ensures old(calls) <= calls && Progress(work, begun, done, store)
      ensures ok ==> done == base + |rows| && Found(table, kind, cursor) == work[done..]
      ensures !ok ==> Failed(old(calls), calls) || StopsAt(work, done)
    {
      ok, cursor, done := true, start, base;
      for i := 0 to |rows|
        invariant old(calls) <= calls && done == base + i && Progress(work, begun, done, store)
        invariant Found(table, kind, cursor) == work[done..]
      {
        ok, cursor, done := FillAndMove(table, kind, rows[i], cursor, work, begun, base + i);
        if !ok {
          return;
        }
      }
    }

    method FillAndMove(table: seq<Subject>, kind: Kind, row: Subject, cursor: int,
                       ghost work: seq<Item>, ghost begun: seq<Stored>, ghost n: nat)
      returns (ok: bool, cursor': int, ghost done: nat)
      requires Sorted(table) && work == Found(table, kind, 0) && Progress(work, begun, n, store)
      requires n < |work| && work[n] == Item(kind, row)
      modifies this
      ensures old(calls) <= calls && Progress(work, begun, done, store)
      ensures ok ==> done == n + 1 && Found(table, kind, cursor') == work[done..]
      ensures !ok ==> Failed(old(calls), calls) || StopsAt(work, done)
    {
      FoundMoves(table, kind, n);
      ok, done := FillNext(Item(kind, row), work, begun, n);
      cursor' := if ok then row.id else cursor;
    }

    /** The next subject found. */
    method FillNext(item: Item, ghost work: seq<Item>, ghost begun: seq<Stored>, ghost n: nat)
      returns (ok: bool, ghost done: nat)
      requires n < |work| && item == work[n] && Progress(work, begun, n, store)
      modifies this
      ensures old(calls) <= calls && Progress(work, begun, done, store)
      ensures ok ==> done == n + 1
      ensures !ok ==> Failed(old(calls), calls) || StopsAt(work, done)
    {
      done := n;
      if !TenantValid(item) {
        return false, done;
      }
      ProgressMore(work, begun, n, store);
      ok := FillSubject(item);
      done := if ok || store != old(store) then n + 1 else n;
    }

    /** The whole script. If no call fails it completes if and only if every subject found has a valid
        tenant. */
    method Run(candidates: seq<Subject>, criminals: seq<Subject>) returns (ok: bool)
      requires Sorted(candidates) && Sorted(criminals)
      modifies this
      ensures ok ==> store == Fill(old(store), Work(candidates, criminals))
      ensures !ok ==> Interrupted(FillItem, old(store), Work(candidates, criminals), store)
      ensures ok ==> forall item :: item in Work(candidates, criminals) ==> Tenanted(item.subject)
      ensures !Failed(old(calls), calls) ==>
                (ok <==> forall item :: item in Work(candidates, criminals) ==> Tenanted(item.subject))
    {
      ValidMeans(Work(candidates, criminals));
      ghost var a, b := Found(candidates, Candidate, 0), Found(criminals, Criminal, 0);
      ghost var done;
      ok, done := Pass(candidates, Candidate);
      FirstPass(a, b, old(store), done, store);
      if ok {
        ghost var first := store;
        ok, done := Pass(criminals, Criminal);
        SecondPass(a, b, old(store), first, done, store);
      }
    }
  }

  /** The subject belongs to a tenant with a positive number. */
  predicate Tenanted(r: Subject) {
    r.tenant.Some? && 1 <= r.tenant.value
  }

  lemma ValidMeans(work: seq<Item>)
    ensures AllValid(work) <==> forall item :: item in work ==> Tenanted(item.subject)
  {
    if AllValid(work) {
      forall item | item in work ensures Tenanted(item.subject) {
        var k :| 0 <= k < |work| && work[k] == item;
        assert TenantValid(work[k]);
      }
    }
  }

  predicate ValidTo(work: seq<Item>, n: nat)
    requires n <= |work|
  {
    forall k :: 0 <= k < n ==> TenantValid(work[k])
  }

  predicate AllValid(work: seq<Item>) {
    forall k :: 0 <= k < |work| ==> TenantValid(work[k])
  }

  /** The first n subjects are valid, and they are what has been filled in. */
  ghost predicate Progress(work: seq<Item>, store: seq<Stored>, n: nat, store': seq<Stored>) {
    n <= |work| && ValidTo(work, n) && store' == Fill(store, work[..n])
  }

  predicate StopsAt(work: seq<Item>, n: nat) {
    n < |work| && !TenantValid(work[n])
  }

  lemma ProgressMore(work: seq<Item>, store: seq<Stored>, n: nat, store': seq<Stored>)
    requires n < |work| && Progress(work, store, n, store') && TenantValid(work[n])
    ensures Progress(work, store, n + 1, Fill(store', [work[n]]))
  {
    var a := work[..n];
    assert work[..n + 1] == a + [work[n]];
    FillMore(store, a, work[n]);
  }

  lemma FillMore(store: seq<Stored>, work: seq<Item>, item: Item)
    ensures Fill(Fill(store, work), [item]) == Fill(store, work + [item])
  {
    FillConcat(store, work, [item]);
  }

  lemma FirstPass(a: seq<Item>, b: seq<Item>, store: seq<Stored>, n: nat, store': seq<Stored>)
    requires Progress(a, store, n, store')
    ensures Interrupted(FillItem, store, a + b, store')
    ensures StopsAt(a, n) ==> !AllValid(a + b)
  {
    assert (a + b)[..n] == a[..n];
    assert StopsAt(a, n) ==> (a + b)[n] == a[n];
  }

  lemma SecondPass(a: seq<Item>, b: seq<Item>, store: seq<Stored>, first: seq<Stored>, n: nat, store': seq<Stored>)
    requires Progress(a, store, |a|, first) && Progress(b, first, n, store')
    ensures Interrupted(FillItem, store, a + b, store')
    ensures n == |b| ==> store' == Fill(store, a + b) && AllValid(a + b)
    ensures StopsAt(b, n) ==> !AllValid(a + b)
  {
    SecondFill(a, b, store, first, n, store');
    SecondValid(a, b, n);
  }

  lemma SecondValid(a: seq<Item>, b: seq<Item>, n: nat)
    requires n <= |b| && ValidTo(a, |a|) && ValidTo(b, n)
    ensures n == |b| ==> AllValid(a + b)
    ensures StopsAt(b, n) ==> !AllValid(a + b)
  {
    assert StopsAt(b, n) ==> (a + b)[|a| + n] == b[n];
  }

  lemma SecondFill(a: seq<Item>, b: seq<Item>, store: seq<Stored>, first: seq<Stored>, n: nat, store': seq<Stored>)
    requires n <= |b| && first == Fill(store, a[..|a|]) && store' == Fill(first, b[..n])
    ensures store' == Fill(store, (a + b)[..|a| + n])
    ensures n == |b| ==> store' == Fill(store, a + b)
  {
    var rest, all := b[..n], a + b;
    assert a[..|a|] == a && all[..|a| + n] == a + rest;
    assert n == |b| ==> rest == b;
    FoldConcat(FillItem, store, a, rest);
  }
}
