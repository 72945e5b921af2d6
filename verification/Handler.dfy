/**
 DocumentHandler: reconcile() turns a desired document and the possible previous records into
 one write op, and apply() turns a batch of ops into phases of runtime calls.
 */
module Handler {
  import opened Wrappers
  import opened Identity
  import opened Documents
  import opened Store

  datatype DiffAction = Insert | Amend | Rewrite

  datatype Op = Upsert | Replace | Recreate | UpdateMetadata

  /** `stale` holds recorded ids that are no longer the key's id. */
  datatype Action =
    | Delete(key: Key, id: DataId, stale: set<DataId>)
    | Write(key: Key, id: DataId, stale: set<DataId>, op: Op, payload: Payload)

  /** A tracked state of one key: a record, or the marker that a deletion was attempted. */
  datatype TrackedState = Live(record: Record) | Absent

  datatype Output = Output(action: Action, intended: TrackedState)

  // ---------------------------------------------------------------------
  // Reconcile
  // ---------------------------------------------------------------------

  /** The contract of statediff.diff for a desired record. */
  function Diff(desired: Record, prev: set<Record>, missing: bool): Option<DiffAction> {
    if prev == {} then (if missing then Some(Insert) else None)
    else if exists r :: r in prev && r != desired then Some(Rewrite)
    else if missing then Some(Amend)
    else None
  }

  function ClassifyWrite(diff: DiffAction, desired: Record, prev: set<Record>, missing: bool): Op {
    if exists r :: r in prev && r.weight != desired.weight then Recreate
    else if diff.Insert? || diff.Amend? then
      if missing && prev != {} then Replace else Upsert
    else if !missing && forall r :: r in prev ==> SameDerivativeInputs(r, desired) then UpdateMetadata
    else Replace
  }

  /** Where statediff's choice is not pinned down, the write op does not depend on it. */
  lemma DiffChoiceIsIrrelevant(desired: Record, prev: set<Record>)
    requires prev != {}
    ensures ClassifyWrite(Amend, desired, prev, true) == ClassifyWrite(Rewrite, desired, prev, true)
  {
  }

  function StaleIds(id: DataId, prev: set<Record>): set<DataId> {
    set r | r in prev && r.id != id :: r.id
  }

  function Reconcile(c: Coordinates, processing: Fingerprint, key: Key, desired: Option<Spec>, prev: set<Record>,
                     missing: bool): Option<Output>
  {
    var id := DataIdOf(c, key);
    match desired
    case None =>
      if prev == {} && !missing then None
      else Some(Output(Delete(key, id, StaleIds(id, prev)), Absent))
    case Some(spec) =>
      var record := RecordFor(spec, id, processing);
      match Diff(record, prev, missing)
      case None => None
      case Some(diff) =>
        var op := ClassifyWrite(diff, record, prev, missing);
        Some(Output(Write(key, id, StaleIds(id, prev), op, PayloadFor(spec, id)), Live(record)))
  }

  /** The possible previous record describes derivatives that this document would have. */
  predicate BuiltAlike(r: Record, spec: Spec, id: DataId, processing: Fingerprint) {
    && r.id == id && r.schema == RECORD_SCHEMA_VERSION && r.processing == processing
    && r.content == spec.content
    && r.annotations.metadata == spec.metadata
    && r.annotations.nodes == (match spec.nodeSet case None => None case Some(nodes) => Some(multiset(nodes)))
  }

  predicate SameWeight(r: Record, spec: Spec) {
    r.weight == Recorded(spec.weight)
  }

  /** The record is what the document's own would be. */
  predicate Matches(r: Record, spec: Spec, id: DataId, processing: Fingerprint) {
    BuiltAlike(r, spec, id, processing) && SameWeight(r, spec) && r.labelText == spec.labelText
  }

  /**
   The op on the records alone. Nothing is written when nothing is recorded, or only the document as
   it is, and it cannot be missing. A changed weight recreates, whatever else changed; of the rest,
   doubt or a changed derivative input replaces, and a document known to be intact is only re-added.
   */
  lemma WriteExactly(c: Coordinates, processing: Fingerprint, key: Key, spec: Spec, prev: set<Record>, missing: bool)
    ensures var id := DataIdOf(c, key);
            var out := Reconcile(c, processing, key, Some(spec), prev, missing);
            && (out.None? <==> !missing && forall r :: r in prev ==> Matches(r, spec, id, processing))
            && (out.Some? ==>
                  out.value.action.Write? && OpFits(out.value.action.op, spec, id, processing, prev, missing))
  {
    var id := DataIdOf(c, key);
    var d := RecordFor(spec, id, processing);
    assert forall r :: r == d <==> Matches(r, spec, id, processing);
    assert forall r :: SameDerivativeInputs(r, d) <==> BuiltAlike(r, spec, id, processing);
  }

  /** Exactly one op fits. */
  ghost predicate OpFits(op: Op, spec: Spec, id: DataId, processing: Fingerprint, prev: set<Record>, missing: bool) {
    var sameWeights := forall r :: r in prev ==> SameWeight(r, spec);
    var intact := !missing && forall r :: r in prev ==> BuiltAlike(r, spec, id, processing);
    && (op.Upsert? <==> prev == {})
    && (op.Recreate? <==> !sameWeights)
    && (op.Replace? <==> prev != {} && sameWeights && !intact)
    && (op.UpdateMetadata? <==> prev != {} && sameWeights && intact)
  }

  /** What an output is about: the key, its own id, the ids to clear away, the document and its record. */
  lemma OutputCarries(c: Coordinates, processing: Fingerprint, key: Key, desired: Option<Spec>, prev: set<Record>,
                      missing: bool)
    ensures var id := DataIdOf(c, key);
            var out := Reconcile(c, processing, key, desired, prev, missing);
            && (desired.None? ==> (out.None? <==> prev == {} && !missing))
            && (out.Some? ==>
                  var a := out.value.action;
                  && a.key == key && a.id == id && (a.Delete? <==> desired.None?)
                  && (forall old_id :: old_id in a.stale <==> old_id != id && exists r :: r in prev && r.id == old_id)
                  && (out.value.intended.Absent? <==> desired.None?)
                  && (desired.Some? ==>
                        && Matches(out.value.intended.record, desired.value, id, processing)
                        && Carries(a.payload, desired.value, id)))
  {
  }

  predicate Carries(p: Payload, spec: Spec, id: DataId) {
    && p.id == id && p.content == spec.content && p.labelText == spec.labelText
    && p.metadata == spec.metadata && p.nodeSet == spec.nodeSet && p.weight == spec.weight
  }

  // ---------------------------------------------------------------------
  // Apply: from actions to a batch
  // ---------------------------------------------------------------------

  /** What the collecting loop has gathered so far. */
  datatype Draft = Draft(deletes: set<DataId>, purges: set<DataId>, recreates: set<DataId>,
                         payloads: map<DataId, Payload>, cognify: bool)

  function Absorb(d: Draft, a: Action): Draft {
    match a
    case Delete(_, id, stale) => d.(deletes := d.deletes + stale + {id})
    case Write(_, id, stale, op, payload) =>
      Draft(d.deletes + stale,
            if op.Replace? then d.purges + {id} else d.purges,
            if op.Recreate? then d.recreates + {id} else d.recreates,
            d.payloads[id := payload],
            d.cognify || !op.UpdateMetadata?)
  }

  function Collect(actions: seq<Action>): Draft {
    if actions == [] then Draft({}, {}, {}, map[], false)
    else Absorb(Collect(actions[..|actions| - 1]), actions[|actions| - 1])
  }

  function BatchOf(d: Draft): Batch {
    Batch(d.deletes - d.payloads.Keys + d.recreates, d.purges - d.recreates, d.payloads, d.cognify)
  }

  ghost predicate OneActionPerId(actions: seq<Action>) {
    forall a, b :: a in actions && b in actions && a.id == b.id ==> a == b
  }

  predicate WritesOwnId(a: Action) {
    a.Write? ==> a.payload.id == a.id
  }

  predicate Removes(a: Action, id: DataId) {
    id in a.stale || (a.Delete? && a.id == id)
  }

  predicate Writes(a: Action, id: DataId) {
    a.Write? && a.id == id
  }

  predicate Purges(a: Action, id: DataId) {
    Writes(a, id) && a.op.Replace?
  }

  predicate Recreates(a: Action, id: DataId) {
    Writes(a, id) && a.op.Recreate?
  }

  predicate NeedsCognify(a: Action) {
    a.Write? && !a.op.UpdateMetadata?
  }

  lemma {:induction false} CollectGathers(actions: seq<Action>, id: DataId)
    ensures var d := Collect(actions);
            && (id in d.deletes <==> exists a :: a in actions && Removes(a, id))
            && (id in d.purges <==> exists a :: a in actions && Purges(a, id))
            && (id in d.recreates <==> exists a :: a in actions && Recreates(a, id))
            && (id in d.payloads <==> exists a :: a in actions && Writes(a, id))
            && (d.cognify <==> exists a :: a in actions && NeedsCognify(a))
  {
    if actions != [] {
      var n := |actions| - 1;
      var rest, last := actions[..n], actions[n];
      CollectGathers(rest, id);
      assert actions == rest + [last] && last in actions;
      assert forall a :: a in rest ==> a in actions;
      assert Collect(actions) == Absorb(Collect(rest), last);
    }
  }

  /**
   What a list of actions asks of the runtime. An id that is written is deleted only to be recreated,
   and one that is recreated needs no purge.
   */
  lemma BatchAsksFor(actions: seq<Action>, id: DataId)
    ensures var b := BatchOf(Collect(actions));
            var written := exists a :: a in actions && Writes(a, id);
            var removed := exists a :: a in actions && Removes(a, id);
            var recreated := exists a :: a in actions && Recreates(a, id);
            && (id in b.deletes <==> recreated || (removed && !written))
            && (id in b.purges <==> !recreated && exists a :: a in actions && Purges(a, id))
            && (id in b.payloads <==> written)
            && (b.cognify <==> exists a :: a in actions && NeedsCognify(a))
            && (forall i: nat :: LastWrite(actions, id, i) ==> id in b.payloads && b.payloads[id] == actions[i].payload)
  {
    CollectGathers(actions, id);
    forall i: nat | LastWrite(actions, id, i)
      ensures id in Collect(actions).payloads && Collect(actions).payloads[id] == actions[i].payload
    {
      LastWriteWins(actions, id, i);
    }
  }

  ghost predicate LastWrite(actions: seq<Action>, id: DataId, i: nat) {
    && i < |actions| && Writes(actions[i], id)
    && forall j :: i < j < |actions| ==> !Writes(actions[j], id)
  }

  lemma {:induction false} LastWriteWins(actions: seq<Action>, id: DataId, i: nat)
    requires LastWrite(actions, id, i)
    ensures id in Collect(actions).payloads && Collect(actions).payloads[id] == actions[i].payload
  {
    var n := |actions| - 1;
    if i < n {
      assert actions[..n][i] == actions[i];
      LastWriteWins(actions[..n], id, i);
      assert !Writes(actions[n], id);
    }
  }

  lemma {:induction false} CollectPayload(actions: seq<Action>, a: Action)
    requires OneActionPerId(actions) && a in actions && a.Write?
    ensures a.id in Collect(actions).payloads && Collect(actions).payloads[a.id] == a.payload
  {
    var n := |actions| - 1;
    if a != actions[n] {
      assert a in actions[..n];
      assert actions[n] in actions;
      CollectPayload(actions[..n], a);
    }
  }

  // ---------------------------------------------------------------------
  // Apply: running the batch
  // ---------------------------------------------------------------------

  lemma AddedPrefix(store: Table, order: seq<DataId>, payloads: map<DataId, Payload>, list: seq<Payload>, n: nat)
    requires forall i, j :: 0 <= i < j < |order| ==> order[i] != order[j]
    requires n <= |order| == |list| && Elements(order) == payloads.Keys
    requires forall i :: 0 <= i < |order| ==>
               order[i] in payloads && list[i] == payloads[order[i]] && list[i].id == order[i]
    ensures AddSeq(store, list[..n]) == AddAll(store, Selected(payloads, Elements(order[..n])))
    ensures n == |order| ==> AddSeq(store, list[..n]) == AddAll(store, payloads)
  {
    AddSeqIsAddAll(store, order[..n], payloads, list[..n]);
    if n == |order| {
      assert order[..n] == order;
      assert Selected(payloads, Elements(order)) == payloads;
    }
  }

  class DocumentHandler {
    const coords: Coordinates
    const processing: Fingerprint
    const runtime: FakeCogneeRuntime

    constructor (coords: Coordinates, processing: Fingerprint, runtime: FakeCogneeRuntime)
      ensures this.coords == coords && this.processing == processing && this.runtime == runtime
    {
      this.coords := coords;
      this.processing := processing;
      this.runtime := runtime;
    }

    /** Deletes, then purges, then one add, then one cognify; stops where the runtime dies. */
    method Apply(actions: seq<Action>) returns (done: bool)
      requires forall a :: a in actions ==> WritesOwnId(a)
      modifies runtime
      ensures done ==> runtime.documents == ApplyBatch(old(runtime.documents), BatchOf(Collect(actions)), processing)
      ensures !done ==>
                old(runtime.fault).After? &&
                CrashOutcome(old(runtime.documents), BatchOf(Collect(actions)), processing, runtime.documents)
    {
      var deletes: set<DataId>, purges: set<DataId>, recreates: set<DataId> := {}, {}, {};
      var payloads: map<DataId, Payload>, needsCognify := map[], false;
      var i := 0;
      while i < |actions|
        invariant 0 <= i <= |actions|
        invariant Draft(deletes, purges, recreates, payloads, needsCognify) == Collect(actions[..i])
        invariant forall id :: id in payloads ==> payloads[id].id == id
        invariant runtime.documents == old(runtime.documents) && runtime.fault == old(runtime.fault)
      {
        var a := actions[i];
        assert WritesOwnId(a);
        deletes := deletes + a.stale;
        if a.Delete? {
          deletes := deletes + {a.id};
        } else {
          payloads := payloads[a.id := a.payload];
          if a.op.Replace? {
            purges := purges + {a.id};
          } else if a.op.Recreate? {
            recreates := recreates + {a.id};
          }
          if !a.op.UpdateMetadata? {
            needsCognify := true;
          }
        }
        assert actions[..i + 1][..i] == actions[..i];
        i := i + 1;
      }
      assert actions[..i] == actions;
      deletes := deletes - payloads.Keys;
      deletes := deletes + recreates;
      purges := purges - recreates;
      done := Run(Batch(deletes, purges, payloads, needsCognify));
    }

    method Run(b: Batch) returns (done: bool)
      requires forall id :: id in b.payloads ==> b.payloads[id].id == id
      modifies runtime
      ensures done ==> runtime.documents == ApplyBatch(old(runtime.documents), b, processing)
      ensures !done ==> old(runtime.fault).After?
      ensures !done ==> CrashOutcome(old(runtime.documents), b, processing, runtime.documents)
    {
      ghost var start := runtime.documents;
      var deletes := Ordered(b.deletes);
      done := runtime.DeleteDocuments(deletes);
      if !done {
        ghost var n := old(runtime.fault).steps;
        DeleteCrash(start, b, processing, Elements(deletes[..n]), deletes[n], old(runtime.fault).torn);
        return;
      }
      var purges := Ordered(b.purges);
      ghost var fault := runtime.fault;
      done := runtime.PurgeDocumentMemory(purges);
      if !done {
        PurgeCrash(start, b, processing, Elements(purges[..fault.steps]), purges[fault.steps], fault.torn);
        return;
      }
      ghost var added;
      done, added := AddPhase(b.payloads);
      if !done {
        AddCrash(start, b, processing, added);
        return;
      }
      if b.cognify {
        ghost var swept;
        done, swept := runtime.CognifyDataset(processing);
        if !done {
          CognifyCrash(start, b, processing, swept);
        }
      }
    }

    /** One add() for the whole batch, in id order; `added` is what got in before it ended or died. */
    method AddPhase(payloads: map<DataId, Payload>) returns (done: bool, ghost added: set<DataId>)
      requires forall id :: id in payloads ==> payloads[id].id == id
      modifies runtime
      ensures runtime.documents == AddAll(old(runtime.documents), Selected(payloads, added))
      ensures done ==> runtime.documents == AddAll(old(runtime.documents), payloads)
      ensures old(runtime.fault).Never? ==> done && runtime.fault.Never?
    {
      var order := Ordered(payloads.Keys);
      var list := seq(|order|, i requires 0 <= i < |order| => payloads[order[i]]);
      ghost var n;
      done, n := AddList(list);
      AddedPrefix(old(runtime.documents), order, payloads, list, n);
      added := Elements(order[..n]);
    }

    /** `n` is how many got in. */
    method AddList(list: seq<Payload>) returns (done: bool, ghost n: nat)
      modifies runtime
      ensures n <= |list| && (done ==> n == |list|)
      ensures runtime.documents == AddSeq(old(runtime.documents), list[..n])
      ensures old(runtime.fault).Never? ==> done && runtime.fault.Never?
    {
      n := if runtime.fault.After? && runtime.fault.steps < |list| then runtime.fault.steps else |list|;
      assert list[..|list|] == list;
      done := runtime.AddDocuments(list);
    }
  }
}
