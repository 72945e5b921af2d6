/**
 One dataset of the emulated Cognee runtime.

 The pure part says what each operation does to one row and to the whole store, and which
 stores a crash can leave behind. The class runs the same operations one document at a time
 and can die, possibly inside a forget() call, before any of them.
 */
module Store {
  import opened Wrappers
  import opened Identity
  import opened Documents

  /** The inputs one set of graph and vector derivatives was built from. */
  datatype Derivation = Derivation(content: Content, annotations: Annotations, weight: Option<real>)

  datatype Row = Row(payload: Payload, complete: bool, fragments: set<Derivation>, profile: Option<Fingerprint>)

  type Slot = Option<Row>
  type Table = map<DataId, Row>

  function SlotOf(store: Table, id: DataId): Slot {
    if id in store then Some(store[id]) else None
  }

  // ---------------------------------------------------------------------
  // One row
  // ---------------------------------------------------------------------

  function OwnDerivation(p: Payload): Derivation {
    Derivation(p.content, AnnotationsOf(p.metadata, p.nodeSet), p.weight)
  }

  /** Re-adding keeps the stored weight and the derivatives; only new content resets completion. */
  function AddTo(slot: Slot, p: Payload): Row {
    match slot
    case None => Row(p, false, {}, None)
    case Some(row) =>
      row.(payload := p.(weight := row.payload.weight),
           complete := row.complete && row.payload.content == p.content)
  }

  function Purged(slot: Slot): Slot {
    if slot.None? then None else Some(slot.value.(fragments := {}, profile := None, complete := false))
  }

  /** A forget() that died half-way: derivatives gone, row and completion status kept. */
  function Torn(slot: Slot): Slot {
    if slot.None? then None else Some(slot.value.(fragments := {}, profile := None))
  }

  /** Incremental cognify: completed rows are skipped, old derivatives stay. */
  function Cognified(slot: Slot, processing: Fingerprint): Slot {
    if slot.None? || slot.value.complete then slot
    else Some(slot.value.(fragments := slot.value.fragments + {OwnDerivation(slot.value.payload)},
                          profile := Some(processing), complete := true))
  }

  /** Complete, with exactly its own derivatives, built under `processing`. */
  predicate Fresh(row: Row, processing: Fingerprint) {
    row.complete && row.fragments == {OwnDerivation(row.payload)} && row.profile == Some(processing)
  }

  // ---------------------------------------------------------------------
  // The whole store, phase by phase
  // ---------------------------------------------------------------------

  function Elements<T(==)>(s: seq<T>): set<T> {
    set x | x in s
  }

  function DeleteAll(store: Table, ids: set<DataId>): Table {
    store - ids
  }

  function PurgeAll(store: Table, ids: set<DataId>): Table {
    map id | id in store :: if id in ids then Purged(Some(store[id])).value else store[id]
  }

  function AddAll(store: Table, payloads: map<DataId, Payload>): Table {
    map id | id in store.Keys + payloads.Keys ::
      if id in payloads then AddTo(SlotOf(store, id), payloads[id]) else store[id]
  }

  function CognifyAll(store: Table, ids: set<DataId>, processing: Fingerprint): Table {
    map id | id in store :: if id in ids then Cognified(Some(store[id]), processing).value else store[id]
  }

  function TearAt(store: Table, id: DataId): Table {
    if id in store then store[id := Torn(Some(store[id])).value] else store
  }

  /** What one document batch asks of the runtime, in phase order. */
  datatype Batch = Batch(deletes: set<DataId>, purges: set<DataId>, payloads: map<DataId, Payload>, cognify: bool)

  function ApplyBatch(store: Table, b: Batch, processing: Fingerprint): Table {
    var added := AddAll(PurgeAll(DeleteAll(store, b.deletes), b.purges), b.payloads);
    if b.cognify then CognifyAll(added, added.Keys, processing) else added
  }

  // ---------------------------------------------------------------------
  // The same batch seen from one id
  // ---------------------------------------------------------------------

  function AfterDelete(slot: Slot, b: Batch, id: DataId): Slot {
    if id in b.deletes then None else slot
  }

  function AfterPurge(slot: Slot, b: Batch, id: DataId): Slot {
    var s := AfterDelete(slot, b, id);
    if id in b.purges then Purged(s) else s
  }

  function AfterAdd(slot: Slot, b: Batch, id: DataId): Slot {
    var s := AfterPurge(slot, b, id);
    if id in b.payloads then Some(AddTo(s, b.payloads[id])) else s
  }

  function AfterBatch(slot: Slot, b: Batch, id: DataId, processing: Fingerprint): Slot {
    var s := AfterAdd(slot, b, id);
    if b.cognify then Cognified(s, processing) else s
  }

  /** The batch acts on each id separately: no row is lost to, or made by, another id's step. */
  lemma BatchActsPerId(store: Table, b: Batch, processing: Fingerprint, id: DataId)
    ensures SlotOf(ApplyBatch(store, b, processing), id) == AfterBatch(SlotOf(store, id), b, id, processing)
  {
  }

  /** Every point at which the batch can stop, as one id sees it. */
  predicate Stopped(slot: Slot, b: Batch, id: DataId, processing: Fingerprint, now: Slot) {
    || now == slot
    || (id in b.deletes && now == Torn(slot))
    || now == AfterDelete(slot, b, id)
    || (id in b.purges && now == Torn(AfterDelete(slot, b, id)))
    || now == AfterPurge(slot, b, id)
    || now == AfterAdd(slot, b, id)
    || now == AfterBatch(slot, b, id, processing)
  }

  /**
   A store that an interrupted batch may leave: each id stopped somewhere. This allows more
   than any one phase order does, so what holds after every such crash holds after the real ones.
   */
  ghost predicate CrashOutcome(store: Table, b: Batch, processing: Fingerprint, now: Table) {
    forall id :: Stopped(SlotOf(store, id), b, id, processing, SlotOf(now, id))
  }

  lemma CompletionIsAnOutcome(store: Table, b: Batch, processing: Fingerprint)
    ensures CrashOutcome(store, b, processing, store)
    ensures CrashOutcome(store, b, processing, ApplyBatch(store, b, processing))
  {
    forall id ensures Stopped(SlotOf(store, id), b, id, processing, SlotOf(ApplyBatch(store, b, processing), id)) {
      BatchActsPerId(store, b, processing, id);
    }
  }

  lemma DeleteCrash(store: Table, b: Batch, processing: Fingerprint, gone: set<DataId>, next: DataId, torn: bool)
    requires gone <= b.deletes && next in b.deletes
    ensures var now := DeleteAll(store, gone);
            CrashOutcome(store, b, processing, if torn then TearAt(now, next) else now)
  {
  }

  lemma PurgeCrash(store: Table, b: Batch, processing: Fingerprint, purged: set<DataId>, next: DataId, torn: bool)
    requires purged <= b.purges && next in b.purges
    ensures var now := PurgeAll(DeleteAll(store, b.deletes), purged);
            CrashOutcome(store, b, processing, if torn then TearAt(now, next) else now)
  {
  }

  lemma AddCrash(store: Table, b: Batch, processing: Fingerprint, added: set<DataId>)
    ensures CrashOutcome(store, b, processing,
                         AddAll(PurgeAll(DeleteAll(store, b.deletes), b.purges), Selected(b.payloads, added)))
  {
  }

  lemma CognifyCrash(store: Table, b: Batch, processing: Fingerprint, swept: set<DataId>)
    requires b.cognify
    ensures CrashOutcome(store, b, processing,
                         CognifyAll(AddAll(PurgeAll(DeleteAll(store, b.deletes), b.purges), b.payloads),
                                    swept, processing))
  {
  }

  lemma SameSlots(a: Table, b: Table)
    requires forall id :: SlotOf(a, id) == SlotOf(b, id)
    ensures a == b
  {
    forall id ensures (id in a <==> id in b) && (id in a ==> a[id] == b[id]) {
      assert SlotOf(a, id) == SlotOf(b, id);
    }
  }

  // ---------------------------------------------------------------------
  // The runtime
  // ---------------------------------------------------------------------

  /** Adds in list order; a later payload for one id meets the row the earlier one left. */
  function AddSeq(store: Table, payloads: seq<Payload>): Table {
    if payloads == [] then store
    else
      var before := AddSeq(store, payloads[..|payloads| - 1]);
      var p := payloads[|payloads| - 1];
      before[p.id := AddTo(SlotOf(before, p.id), p)]
  }

  // What the operations do to one id, told by the fields.

  predicate FirstFor(payloads: seq<Payload>, id: DataId, i: nat) {
    i < |payloads| && payloads[i].id == id && forall k :: 0 <= k < i ==> payloads[k].id != id
  }

  predicate LastFor(payloads: seq<Payload>, id: DataId, i: nat) {
    i < |payloads| && payloads[i].id == id && forall k :: i < k < |payloads| ==> payloads[k].id != id
  }

  predicate NoneFor(payloads: seq<Payload>, id: DataId) {
    forall i :: 0 <= i < |payloads| ==> payloads[i].id != id
  }

  /** Every payload for the id has this content. */
  predicate AllAlike(payloads: seq<Payload>, id: DataId, content: Content) {
    forall i :: 0 <= i < |payloads| && payloads[i].id == id ==> payloads[i].content == content
  }

  /** Equal but for the weight. */
  predicate SamePayloadButWeight(a: Payload, b: Payload) {
    && a.id == b.id && a.content == b.content && a.labelText == b.labelText
    && a.metadata == b.metadata && a.nodeSet == b.nodeSet
  }

  /**
   The row that adds leave: the last payload for its id, with the weight that came first. A row that was
   there keeps its derivatives, and its completion unless some add changed the content.
   */
  ghost predicate AddedRow(before: Slot, payloads: seq<Payload>, first: Payload, last: Payload, now: Row) {
    && SamePayloadButWeight(now.payload, last)
    && now.payload.weight == (if before.Some? then before.value.payload.weight else first.weight)
    && now.fragments == (if before.Some? then before.value.fragments else {})
    && now.profile == (if before.Some? then before.value.profile else None)
    && (now.complete <==>
          before.Some? && before.value.complete && AllAlike(payloads, last.id, before.value.payload.content))
  }

  lemma {:induction false} SomeLastFor(payloads: seq<Payload>, id: DataId)
    requires !NoneFor(payloads, id)
    ensures exists j: nat :: LastFor(payloads, id, j)
  {
    var n := |payloads| - 1;
    if payloads[n].id == id {
      assert LastFor(payloads, id, n);
    } else {
      SomeLastFor(payloads[..n], id);
      var j: nat :| LastFor(payloads[..n], id, j);
      assert LastFor(payloads, id, j);
    }
  }

  lemma {:induction false} NothingAdded(store: Table, payloads: seq<Payload>, id: DataId)
    requires NoneFor(payloads, id)
    ensures SlotOf(AddSeq(store, payloads), id) == SlotOf(store, id)
  {
    if payloads != [] {
      NothingAdded(store, payloads[..|payloads| - 1], id);
    }
  }

  lemma {:induction false} NamedAreAdded(store: Table, payloads: seq<Payload>, id: DataId)
    requires !NoneFor(payloads, id)
    ensures id in AddSeq(store, payloads)
  {
    if payloads[|payloads| - 1].id != id {
      NamedAreAdded(store, payloads[..|payloads| - 1], id);
    }
  }

  lemma AllAlikeOneMore(payloads: seq<Payload>, id: DataId, content: Content)
    requires payloads != []
    ensures var last := payloads[|payloads| - 1];
            AllAlike(payloads, id, content) <==>
            AllAlike(payloads[..|payloads| - 1], id, content) && (last.id == id ==> last.content == content)
  {
    var front := payloads[..|payloads| - 1];
    assert forall k :: 0 <= k < |front| ==> front[k] == payloads[k];
  }

  /** What any adds make of an id they name. */
  lemma {:induction false} AddSeqAdds(store: Table, payloads: seq<Payload>, id: DataId, i: nat, j: nat)
    requires FirstFor(payloads, id, i) && LastFor(payloads, id, j)
    ensures id in AddSeq(store, payloads)
    ensures AddedRow(SlotOf(store, id), payloads, payloads[i], payloads[j], AddSeq(store, payloads)[id])
  {
    var n := |payloads| - 1;
    var front, row := payloads[..n], SlotOf(store, id);
    if row.Some? {
      AllAlikeOneMore(payloads, id, row.value.payload.content);
    }
    if j < n {
      AddSeqAdds(store, front, id, i, j);
    } else if i == n {
      NothingAdded(store, front, id);
    } else {
      assert front[i].id == id;
      SomeLastFor(front, id);
      var l: nat :| LastFor(front, id, l);
      AddSeqAdds(store, front, id, i, l);
    }
  }

  /** When these are the first and the last payload for the id. */
  ghost predicate AddsBetween(before: Table, payloads: seq<Payload>, id: DataId, i: nat, j: nat, after: Table) {
    FirstFor(payloads, id, i) && LastFor(payloads, id, j) ==>
      id in after && AddedRow(SlotOf(before, id), payloads, payloads[i], payloads[j], after[id])
  }

  /** Ids that are not named stay as they are; for those that are, see AddedRow. */
  ghost predicate Adds(before: Table, payloads: seq<Payload>, after: Table) {
    && (forall id :: NoneFor(payloads, id) ==> SlotOf(after, id) == SlotOf(before, id))
    && (forall id :: !NoneFor(payloads, id) ==> id in after)
    && (forall id, i: nat, j: nat :: AddsBetween(before, payloads, id, i, j, after))
  }

  lemma AddSeqIsExact(store: Table, payloads: seq<Payload>)
    ensures Adds(store, payloads, AddSeq(store, payloads))
  {
    forall id | NoneFor(payloads, id) ensures SlotOf(AddSeq(store, payloads), id) == SlotOf(store, id) {
      NothingAdded(store, payloads, id);
    }
    forall id | !NoneFor(payloads, id) ensures id in AddSeq(store, payloads) {
      NamedAreAdded(store, payloads, id);
    }
    forall id, i: nat, j: nat ensures AddsBetween(store, payloads, id, i, j, AddSeq(store, payloads)) {
      if FirstFor(payloads, id, i) && LastFor(payloads, id, j) {
        AddSeqAdds(store, payloads, id, i, j);
      }
    }
  }

  /** The row is still there without its derivatives and their profile, and as complete as stated. */
  predicate Emptied(before: Slot, now: Slot, complete: bool) {
    match before
    case None => now == None
    case Some(row) =>
      && now.Some? && now.value.payload == row.payload
      && now.value.fragments == {} && now.value.profile == None && now.value.complete == complete
  }

  /** The rows in `gone` are removed, a torn one keeps payload and completion only, others stay. */
  ghost predicate Forgets(before: Table, gone: seq<DataId>, torn: Option<DataId>, after: Table) {
    forall id ::
      if id in gone then id !in after
      else if torn == Some(id) then
        Emptied(SlotOf(before, id), SlotOf(after, id), id in before && before[id].complete)
      else SlotOf(after, id) == SlotOf(before, id)
  }

  lemma DeleteIsExact(store: Table, gone: seq<DataId>, torn: Option<DataId>)
    ensures var now := DeleteAll(store, Elements(gone));
            Forgets(store, gone, torn, if torn.Some? then TearAt(now, torn.value) else now)
  {
  }

  /** The rows in `purged` lose derivatives, profile and completion, a torn one no completion, others stay. */
  ghost predicate Clears(before: Table, purged: seq<DataId>, torn: Option<DataId>, after: Table) {
    forall id ::
      if id in purged then Emptied(SlotOf(before, id), SlotOf(after, id), false)
      else if torn == Some(id) then
        Emptied(SlotOf(before, id), SlotOf(after, id), id in before && before[id].complete)
      else SlotOf(after, id) == SlotOf(before, id)
  }

  lemma PurgeIsExact(store: Table, purged: seq<DataId>, torn: Option<DataId>)
    ensures var now := PurgeAll(store, Elements(purged));
            Clears(store, purged, torn, if torn.Some? then TearAt(now, torn.value) else now)
  {
  }

  /** What was built from this row's content, annotations and weight, in any order of its nodes. */
  predicate BuiltFrom(d: Derivation, p: Payload) {
    && d.content == p.content && d.weight == p.weight && d.annotations.metadata == p.metadata
    && d.annotations.nodes == (match p.nodeSet case None => None case Some(nodes) => Some(multiset(nodes)))
  }

  /** Swept rows that were incomplete are completed next to their old derivatives; others stay. */
  ghost predicate Cognifies(before: Table, swept: set<DataId>, processing: Fingerprint, after: Table) {
    && after.Keys == before.Keys
    && forall id :: id in before ==>
         if id !in swept || before[id].complete then after[id] == before[id]
         else
           && after[id].complete && after[id].profile == Some(processing) && after[id].payload == before[id].payload
           && forall d :: d in after[id].fragments <==> d in before[id].fragments || BuiltFrom(d, before[id].payload)
  }

  lemma CognifyIsExact(store: Table, swept: set<DataId>, processing: Fingerprint)
    ensures Cognifies(store, swept, processing, CognifyAll(store, swept, processing))
  {
  }

  /** A number of per-document steps to live, and whether the last forget() is torn. */
  datatype Fault = Never | After(steps: nat, torn: bool)

  class FakeCogneeRuntime {
    var documents: Table
    var fault: Fault

    constructor ()
      ensures documents == map[] && fault == Never
    {
      documents := map[];
      fault := Never;
    }

    /** Uses up one per-document step; false means the process dies before it. */
    method Step() returns (alive: bool)
      modifies this`fault
      ensures alive == !(old(fault).After? && old(fault).steps == 0)
      ensures fault == if old(fault).After? && alive then After(old(fault).steps - 1, old(fault).torn) else old(fault)
    {
      match fault {
        case Never => alive := true;
        case After(steps, torn) =>
          alive := steps > 0;
          if alive {
            fault := After(steps - 1, torn);
          }
      }
    }

    method DeleteDocuments(ids: seq<DataId>) returns (done: bool)
      modifies this
      ensures done == (old(fault).After? ==> |ids| <= old(fault).steps)
      ensures done ==> documents == DeleteAll(old(documents), Elements(ids))
      ensures done ==> fault == Spent(old(fault), |ids|)
      ensures !done ==>
                var n := old(fault).steps;
                var before := DeleteAll(old(documents), Elements(ids[..n]));
                documents == if old(fault).torn then TearAt(before, ids[n]) else before
      ensures Forgets(old(documents), if done then ids else ids[..old(fault).steps],
                      if !done && old(fault).torn then Some(ids[old(fault).steps]) else None, documents)
    {
      var i := 0;
      while i < |ids|
        invariant 0 <= i <= |ids|
        invariant old(fault).After? ==> i <= old(fault).steps
        invariant fault == Spent(old(fault), i)
        invariant documents == DeleteAll(old(documents), Elements(ids[..i]))
      {
        var torn := fault.After? && fault.torn;
        var alive := Step();
        if !alive {
          DeleteIsExact(old(documents), ids[..i], if torn then Some(ids[i]) else None);
          if torn {
            documents := TearAt(documents, ids[i]);
          }
          return false;
        }
        documents := documents - {ids[i]};
        assert ids[..i + 1] == ids[..i] + [ids[i]];
        i := i + 1;
      }
      assert ids[..i] == ids;
      DeleteIsExact(old(documents), ids, None);
      return true;
    }

    method PurgeDocumentMemory(ids: seq<DataId>) returns (done: bool)
      modifies this
      ensures done == (old(fault).After? ==> |ids| <= old(fault).steps)
      ensures done ==> documents == PurgeAll(old(documents), Elements(ids))
      ensures done ==> fault == Spent(old(fault), |ids|)
      ensures !done ==>
                var n := old(fault).steps;
                var before := PurgeAll(old(documents), Elements(ids[..n]));
                documents == if old(fault).torn then TearAt(before, ids[n]) else before
      ensures Clears(old(documents), if done then ids else ids[..old(fault).steps],
                     if !done && old(fault).torn then Some(ids[old(fault).steps]) else None, documents)
    {
      var i := 0;
      while i < |ids|
        invariant 0 <= i <= |ids|
        invariant old(fault).After? ==> i <= old(fault).steps
        invariant fault == Spent(old(fault), i)
        invariant documents == PurgeAll(old(documents), Elements(ids[..i]))
      {
        var torn := fault.After? && fault.torn;
        var alive := Step();
        if !alive {
          PurgeIsExact(old(documents), ids[..i], if torn then Some(ids[i]) else None);
          if torn {
            documents := TearAt(documents, ids[i]);
          }
          return false;
        }
        if ids[i] in documents {
          documents := documents[ids[i] := Purged(Some(documents[ids[i]])).value];
        }
        assert ids[..i + 1] == ids[..i] + [ids[i]];
        i := i + 1;
      }
      assert ids[..i] == ids;
      PurgeIsExact(old(documents), ids, None);
      return true;
    }

    method AddDocuments(payloads: seq<Payload>) returns (done: bool)
      modifies this
      ensures done == (old(fault).After? ==> |payloads| <= old(fault).steps)
      ensures done ==> documents == AddSeq(old(documents), payloads)
      ensures done ==> fault == Spent(old(fault), |payloads|)
      ensures !done ==> documents == AddSeq(old(documents), payloads[..old(fault).steps])
      ensures Adds(old(documents), if done then payloads else payloads[..old(fault).steps], documents)
    {
      var i := 0;
      while i < |payloads|
        invariant 0 <= i <= |payloads|
        invariant old(fault).After? ==> i <= old(fault).steps
        invariant fault == Spent(old(fault), i)
        invariant documents == AddSeq(old(documents), payloads[..i])
      {
        var alive := Step();
        if !alive {
          AddSeqIsExact(old(documents), payloads[..i]);
          return false;
        }
        var p := payloads[i];
        documents := documents[p.id := AddTo(SlotOf(documents, p.id), p)];
        assert payloads[..i + 1][..i] == payloads[..i];
        i := i + 1;
      }
      assert payloads[..i] == payloads;
      AddSeqIsExact(old(documents), payloads);
      return true;
    }

    /** `swept` is the set of rows the sweep reached before it ended or died. */
    method CognifyDataset(processing: Fingerprint) returns (done: bool, ghost swept: set<DataId>)
      modifies this
      ensures swept <= old(documents).Keys && documents == CognifyAll(old(documents), swept, processing)
      ensures Cognifies(old(documents), swept, processing, documents)
      ensures done ==> swept == old(documents).Keys
      ensures old(fault).Never? ==> done && fault.Never?
    {
      ghost var before := documents;
      swept := {};
      var rest := documents.Keys;
      while rest != {}
        invariant rest <= before.Keys && swept == before.Keys - rest
        invariant old(fault).Never? ==> fault.Never?
        invariant documents == CognifyAll(before, swept, processing)
        decreases |rest|
      {
        done := Step();
        if !done {
          CognifyIsExact(before, swept, processing);
          return;
        }
        var id :| id in rest;
        SweepOne(before, swept, id, processing);
        swept, rest := swept + {id}, rest - {id};
      }
      CognifyIsExact(before, swept, processing);
      done := true;
    }

    /** One iteration of the sweep: a completed row is skipped. */
    method SweepOne(ghost before: Table, ghost swept: set<DataId>, id: DataId, processing: Fingerprint)
      requires id in before && documents == CognifyAll(before, swept, processing)
      modifies this`documents
      ensures documents == CognifyAll(before, swept + {id}, processing)
    {
      CognifyOneMore(before, swept, id, processing);
      var row := documents[id];
      if !row.complete {
        documents := documents[id := Cognified(Some(row), processing).value];
      }
    }

    method TeardownDataset()
      modifies this`documents
      ensures documents == map[]
    {
      documents := map[];
    }
  }

  function Spent(f: Fault, n: nat): Fault
    requires f.After? ==> n <= f.steps
  {
    if f.Never? then f else After(f.steps - n, f.torn)
  }

  function Selected(payloads: map<DataId, Payload>, ids: set<DataId>): map<DataId, Payload> {
    map id | id in payloads && id in ids :: payloads[id]
  }

  /** Adding distinct ids one by one, in any order, adds each of them once. */
  lemma {:induction false} AddSeqAt(store: Table, list: seq<Payload>, id: DataId)
    requires forall i, j :: 0 <= i < j < |list| ==> list[i].id != list[j].id
    ensures forall i :: 0 <= i < |list| && list[i].id == id ==>
              SlotOf(AddSeq(store, list), id) == Some(AddTo(SlotOf(store, id), list[i]))
    ensures (forall i :: 0 <= i < |list| ==> list[i].id != id) ==> SlotOf(AddSeq(store, list), id) == SlotOf(store, id)
  {
    if list != [] {
      AddSeqAt(store, list[..|list| - 1], id);
    }
  }

  lemma AddSeqIsAddAll(store: Table, order: seq<DataId>, payloads: map<DataId, Payload>, list: seq<Payload>)
    requires forall i, j :: 0 <= i < j < |order| ==> order[i] != order[j]
    requires |list| == |order|
    requires forall i :: 0 <= i < |order| ==>
               order[i] in payloads && list[i] == payloads[order[i]] && list[i].id == order[i]
    ensures AddSeq(store, list) == AddAll(store, Selected(payloads, Elements(order)))
  {
    var all := AddAll(store, Selected(payloads, Elements(order)));
    forall id ensures SlotOf(AddSeq(store, list), id) == SlotOf(all, id) {
      AddSeqAt(store, list, id);
      if id in Elements(order) {
        var i :| 0 <= i < |order| && order[i] == id;
        assert list[i].id == id;
      } else {
        assert forall i :: 0 <= i < |list| ==> list[i].id != id;
      }
    }
    SameSlots(AddSeq(store, list), all);
  }

  lemma CognifyOneMore(store: Table, swept: set<DataId>, id: DataId, processing: Fingerprint)
    requires id in store
    ensures var now := CognifyAll(store, swept, processing);
            CognifyAll(store, swept + {id}, processing) ==
            if now[id].complete then now else now[id := Cognified(Some(now[id]), processing).value]
  {
  }

  /** Some enumeration of the ids: their UUID text order says nothing about what they identify. */
  method Ordered(ids: set<DataId>) returns (list: seq<DataId>)
    ensures Elements(list) == ids && |list| == |ids|
    ensures forall i, j :: 0 <= i < j < |list| ==> list[i] != list[j]
  {
    list := [];
    var rest := ids;
    while rest != {}
      invariant Elements(list) + rest == ids && Elements(list) !! rest && |list| + |rest| == |ids|
      invariant forall i, j :: 0 <= i < j < |list| ==> list[i] != list[j]
      decreases |rest|
    {
      var id :| id in rest;
      assert id !in Elements(list);
      list := list + [id];
      rest := rest - {id};
    }
  }
}
