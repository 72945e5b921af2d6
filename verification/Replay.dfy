/** Replays and batch order: what repeating or reordering the work cannot change. */
module Replay {
  import opened Wrappers
  import opened Identity
  import opened Documents
  import opened Store
  import opened Handler
  import opened Engine
  import opened Convergence

  // ---------------------------------------------------------------------
  // Replay
  // ---------------------------------------------------------------------

  lemma ReplayAbsorbsStop(slot: Slot, b: Batch, id: DataId, p: Fingerprint, now: Slot)
    requires Stopped(slot, b, id, p, now)
    ensures AfterBatch(now, b, id, p) == AfterBatch(slot, b, id, p)
  {
  }

  /**
   At-least-once delivery is harmless: for any store and any batch, running the batch after any
   interrupted run of it gives the store that one uninterrupted run gives.
   */
  lemma ReplayAbsorbsCrash(store: Table, b: Batch, p: Fingerprint, left: Table)
    requires CrashOutcome(store, b, p, left)
    ensures ApplyBatch(left, b, p) == ApplyBatch(store, b, p)
  {
    forall id ensures SlotOf(ApplyBatch(left, b, p), id) == SlotOf(ApplyBatch(store, b, p), id) {
      assert Stopped(SlotOf(store, id), b, id, p, SlotOf(left, id));
      BatchActsPerId(left, b, p, id);
      BatchActsPerId(store, b, p, id);
      ReplayAbsorbsStop(SlotOf(store, id), b, id, p, SlotOf(left, id));
    }
    SameSlots(ApplyBatch(left, b, p), ApplyBatch(store, b, p));
  }

  lemma ReplayIsIdempotent(store: Table, b: Batch, p: Fingerprint)
    ensures ApplyBatch(ApplyBatch(store, b, p), b, p) == ApplyBatch(store, b, p)
  {
    CompletionIsAnOutcome(store, b, p);
    ReplayAbsorbsCrash(store, b, p, ApplyBatch(store, b, p));
  }

  // ---------------------------------------------------------------------
  // One batch, or one document at a time
  // ---------------------------------------------------------------------

  function SingleBatch(a: Action): Batch {
    BatchOf(Collect([a]))
  }

  /** Each document's own delete, purge, add and cognify, one document after the other. */
  ghost function OneByOne(c: Coordinates, s: State, order: seq<Key>): Table
    requires forall k :: k in order ==> k in Outputs(c, s)
  {
    if order == [] then s.store
    else
      var n := |order| - 1;
      ApplyBatch(OneByOne(c, s, order[..n]), SingleBatch(Outputs(c, s)[order[n]].action), s.processing)
  }

  predicate Concerns(a: Action, id: DataId) {
    a.id == id || id in a.stale
  }

  lemma SingleBatchFacts(a: Action, id: DataId)
    requires a.id !in a.stale && WritesOwnId(a)
    ensures Plans(a, SingleBatch(a))
    ensures !Concerns(a, id) ==> id !in SingleBatch(a).deletes + SingleBatch(a).purges + SingleBatch(a).payloads.Keys
    ensures id in a.stale ==> id in SingleBatch(a).deletes && id !in SingleBatch(a).payloads
  {
    assert Collect([a]) == Absorb(Draft({}, {}, {}, map[], false), a) by {
      assert [a][..0] == [];
    }
  }

  /** What the op was chosen for: a fresh write meets no row, a relabelling meets a complete one. */
  predicate Suits(a: Action, slot: Slot) {
    && (a.Write? && a.op.Upsert? ==> slot.None?)
    && (a.Write? && a.op.UpdateMetadata? ==>
          slot.Some? && slot.value.complete && slot.value.payload.content == a.payload.content)
  }

  lemma OpSuitsRow(c: Coordinates, s: State, k: Key)
    requires Inv(c, s) && k in Outputs(c, s)
    ensures Suits(Outputs(c, s)[k].action, SlotOf(s.store, DataIdOf(c, k)))
  {
    var e, a := EntryOf(s.tracking, k), Outputs(c, s)[k].action;
    assert OutputFor(c, s.processing, k, Wanted(s.declared, k), e) == Some(Outputs(c, s)[k]);
    KeyBeforeSync(c, s, k);
    if a.Write? {
      OpTells(c, s.processing, k, s.declared[k], e);
    }
  }

  /** A bare add means that nothing is recorded, a bare re-add that all records agree with the document. */
  lemma OpTells(c: Coordinates, p: Fingerprint, k: Key, spec: Spec, e: TrackEntry)
    requires OutputFor(c, p, k, Some(spec), e).Some?
    ensures var a := OutputFor(c, p, k, Some(spec), e).value.action;
            && (a.op.Upsert? ==> Records(e) == {})
            && (a.op.UpdateMetadata? ==>
                  exists r :: r in Records(e) && Settled(c, k, e, r) && r.content == a.payload.content)
  {
    if Records(e) != {} && OutputFor(c, p, k, Some(spec), e).value.action.op.UpdateMetadata? {
      var r :| r in Records(e);
      assert Settled(c, k, e, r);
    }
  }

  /** The action's own row ends the same whichever batch carries it and whether a sweep came first. */
  lemma OwnRowEndsAlike(a: Action, slot: Slot, swept: Slot, b: Batch, b': Batch, p: Fingerprint)
    requires Plans(a, b) && Plans(a, b') && Suits(a, slot)
    requires swept in {slot, Cognified(slot, p)}
    ensures AfterBatch(swept, b', a.id, p) == AfterBatch(slot, b, a.id, p)
    ensures Cognified(AfterBatch(slot, b, a.id, p), p) == AfterBatch(slot, b, a.id, p)
  {
  }

  lemma OwnIdIsNotStale(c: Coordinates, s: State, k: Key, k': Key)
    requires Inv(c, s) && k in Outputs(c, s) && k' in Outputs(c, s)
    ensures Outputs(c, s)[k].action.id !in Outputs(c, s)[k'].action.stale
    ensures Outputs(c, s)[k].action.id == Outputs(c, s)[k'].action.id ==> k == k'
  {
    RoundActsOnOwnId(c, s.processing, s.declared, s.tracking, k);
    RoundActsOnOwnId(c, s.processing, s.declared, s.tracking, k');
    if DataIdOf(c, k) == DataIdOf(c, k') {
      IdsSeparateKeys(c, k, k');
    }
    if DataIdOf(c, k) in Outputs(c, s)[k'].action.stale {
      StaleIdsAreForeign(c, s, k', DataIdOf(c, k));
    }
  }

  ghost predicate SomeConcern(c: Coordinates, s: State, order: seq<Key>, id: DataId)
    requires forall k :: k in order ==> k in Outputs(c, s)
  {
    exists k :: k in order && Concerns(Outputs(c, s)[k].action, id)
  }

  lemma ConcernOneMore(c: Coordinates, s: State, order: seq<Key>, id: DataId)
    requires order != [] && forall k :: k in order ==> k in Outputs(c, s)
    ensures SomeConcern(c, s, order, id) <==>
            SomeConcern(c, s, order[..|order| - 1], id) || Concerns(Outputs(c, s)[order[|order| - 1]].action, id)
  {
    assert forall k :: k in order <==> k in order[..|order| - 1] || k == order[|order| - 1];
  }

  /** After some of the documents, an id is where the batch will leave it, or at most swept. */
  ghost predicate Arrived(c: Coordinates, s: State, actions: seq<Action>, order: seq<Key>, id: DataId)
    requires forall k :: k in order ==> k in Outputs(c, s)
  {
    var slot := SlotOf(s.store, id);
    var now := SlotOf(OneByOne(c, s, order), id);
    if SomeConcern(c, s, order, id)
    then now == AfterBatch(slot, BatchOf(Collect(actions)), id, s.processing)
    else now in {slot, Cognified(slot, s.processing)}
  }

  lemma {:induction false} OneByOneAt(c: Coordinates, s: State, actions: seq<Action>, order: seq<Key>, id: DataId)
    requires Inv(c, s) && Lists(actions, Outputs(c, s))
    requires forall k :: k in order ==> k in Outputs(c, s)
    requires forall i, j :: 0 <= i < j < |order| ==> order[i] != order[j]
    ensures Arrived(c, s, actions, order, id)
  {
    if order != [] {
      OneByOneAt(c, s, actions, order[..|order| - 1], id);
      OneMoreArrives(c, s, actions, order, id);
    }
  }

  lemma OneMoreArrives(c: Coordinates, s: State, actions: seq<Action>, order: seq<Key>, id: DataId)
    requires Inv(c, s) && Lists(actions, Outputs(c, s))
    requires order != [] && forall k :: k in order ==> k in Outputs(c, s)
    requires forall i, j :: 0 <= i < j < |order| ==> order[i] != order[j]
    requires Arrived(c, s, actions, order[..|order| - 1], id)
    ensures Arrived(c, s, actions, order, id)
  {
    var front, last := order[..|order| - 1], order[|order| - 1];
    var a, before := Outputs(c, s)[last].action, OneByOne(c, s, front);
    BatchActsPerId(before, SingleBatch(a), s.processing, id);
    forall k | k in front && Concerns(Outputs(c, s)[k].action, id) ensures a.id != id {
      OwnIdIsNotStale(c, s, last, k);
      OwnIdIsNotStale(c, s, k, last);
    }
    ConcernOneMore(c, s, order, id);
    LastDocumentAt(c, s, actions, last, id, SlotOf(before, id), SomeConcern(c, s, front, id));
  }

  /** One more document: it settles its own id, removes its stale ids and only sweeps the rest. */
  lemma LastDocumentAt(c: Coordinates, s: State, actions: seq<Action>, k: Key, id: DataId, before: Slot, settled: bool)
    requires Inv(c, s) && Lists(actions, Outputs(c, s)) && k in Outputs(c, s)
    requires var slot := SlotOf(s.store, id);
             if settled then before == AfterBatch(slot, BatchOf(Collect(actions)), id, s.processing)
             else before in {slot, Cognified(slot, s.processing)}
    requires settled ==> Outputs(c, s)[k].action.id != id
    requires settled ==> exists q :: q in Outputs(c, s) && Concerns(Outputs(c, s)[q].action, id)
    ensures var slot := SlotOf(s.store, id);
            var now := AfterBatch(before, SingleBatch(Outputs(c, s)[k].action), id, s.processing);
            if settled || Concerns(Outputs(c, s)[k].action, id)
            then now == AfterBatch(slot, BatchOf(Collect(actions)), id, s.processing)
            else now in {slot, Cognified(slot, s.processing)}
  {
    var a := Outputs(c, s)[k].action;
    OwnIdIsNotStale(c, s, k, k);
    RoundActsOnOwnId(c, s.processing, s.declared, s.tracking, k);
    SingleBatchFacts(a, id);
    if a.id == id {
      RoundPlans(c, s, actions, k);
      OpSuitsRow(c, s, k);
      OwnRowEndsAlike(a, SlotOf(s.store, id), before, BatchOf(Collect(actions)), SingleBatch(a), s.processing);
    } else if id in a.stale {
      StalePurged(c, s, actions, k, id);
      DeletedIsGone(before, SingleBatch(a), id, s.processing);
    } else if settled {
      var q :| q in Outputs(c, s) && Concerns(Outputs(c, s)[q].action, id);
      EndIsSwept(c, s, actions, q, id);
    }
  }

  lemma StalePurged(c: Coordinates, s: State, actions: seq<Action>, k: Key, id: DataId)
    requires Inv(c, s) && Lists(actions, Outputs(c, s)) && k in Outputs(c, s) && id in Outputs(c, s)[k].action.stale
    ensures AfterBatch(SlotOf(s.store, id), BatchOf(Collect(actions)), id, s.processing) == None
  {
    BatchTouches(c, s, actions, id);
    DeletedIsGone(SlotOf(s.store, id), BatchOf(Collect(actions)), id, s.processing);
  }

  lemma DeletedIsGone(slot: Slot, b: Batch, id: DataId, p: Fingerprint)
    requires id in b.deletes && id !in b.payloads
    ensures AfterBatch(slot, b, id, p) == None
  {
  }

  lemma EndIsSwept(c: Coordinates, s: State, actions: seq<Action>, q: Key, id: DataId)
    requires Inv(c, s) && Lists(actions, Outputs(c, s)) && q in Outputs(c, s) && Concerns(Outputs(c, s)[q].action, id)
    ensures var end := AfterBatch(SlotOf(s.store, id), BatchOf(Collect(actions)), id, s.processing);
            Cognified(end, s.processing) == end
  {
    var a := Outputs(c, s)[q].action;
    RoundActsOnOwnId(c, s.processing, s.declared, s.tracking, q);
    if a.id == id {
      RoundPlans(c, s, actions, q);
      OpSuitsRow(c, s, q);
      var b := BatchOf(Collect(actions));
      OwnRowEndsAlike(a, SlotOf(s.store, id), SlotOf(s.store, id), b, b, s.processing);
    } else {
      StalePurged(c, s, actions, q, id);
    }
  }

  /** An id no action concerns is absent or holds a complete row. */
  lemma UnconcernedRow(c: Coordinates, s: State, actions: seq<Action>, id: DataId)
    requires Inv(c, s) && Lists(actions, Outputs(c, s))
    requires forall k :: k in Outputs(c, s) ==> !Concerns(Outputs(c, s)[k].action, id)
    ensures var slot := SlotOf(s.store, id);
            && Cognified(slot, s.processing) == slot
            && AfterBatch(slot, BatchOf(Collect(actions)), id, s.processing) == slot
  {
    assert forall a :: a in actions ==> !Concerns(a, id);
    UntouchedByBatch(actions, id, SlotOf(s.store, id), s.processing);
    if id in s.store {
      assert Covered(c, s.tracking, id);
      var k :| k in s.tracking && Covers(c, k, s.tracking[k], id);
      CoveringKeyConcerns(c, s, k, id);
      SilentRowIsComplete(c, s, k, id);
    }
  }

  lemma SilentRowIsComplete(c: Coordinates, s: State, k: Key, id: DataId)
    requires Inv(c, s) && k in s.tracking && k !in Outputs(c, s) && Covers(c, k, s.tracking[k], id)
    ensures Cognified(SlotOf(s.store, id), s.processing) == SlotOf(s.store, id)
  {
    SilentKeyIsConverged(c, s, k);
  }

  lemma UntouchedByBatch(actions: seq<Action>, id: DataId, slot: Slot, p: Fingerprint)
    requires forall a :: a in actions ==> !Concerns(a, id)
    ensures AfterBatch(slot, BatchOf(Collect(actions)), id, p) in {slot, Cognified(slot, p)}
  {
    CollectGathers(actions, id);
  }

  /** A key with an action acts on every id it covers. */
  lemma CoveringKeyConcerns(c: Coordinates, s: State, k: Key, id: DataId)
    requires Inv(c, s) && k in s.tracking && Covers(c, k, s.tracking[k], id)
    ensures k in Outputs(c, s) ==> Concerns(Outputs(c, s)[k].action, id)
  {
    if k in Outputs(c, s) {
      RoundActsOnOwnId(c, s.processing, s.declared, s.tracking, k);
    }
  }

  /**
   On every state of the invariant the phased batch (all deletes, all purges, one add, one cognify) leaves
   the store that running each document by itself leaves, in any order of the documents.
   */
  lemma BatchingChangesNothing(c: Coordinates, s: State, actions: seq<Action>, order: seq<Key>)
    requires Inv(c, s) && Lists(actions, Outputs(c, s))
    requires forall k :: k in order <==> k in Outputs(c, s)
    requires forall i, j :: 0 <= i < j < |order| ==> order[i] != order[j]
    ensures OneByOne(c, s, order) == ApplyBatch(s.store, BatchOf(Collect(actions)), s.processing)
  {
    var phased := ApplyBatch(s.store, BatchOf(Collect(actions)), s.processing);
    forall id ensures SlotOf(OneByOne(c, s, order), id) == SlotOf(phased, id) {
      OneByOneAt(c, s, actions, order, id);
      BatchActsPerId(s.store, BatchOf(Collect(actions)), s.processing, id);
      if !SomeConcern(c, s, order, id) {
        UnconcernedRow(c, s, actions, id);
      }
    }
    SameSlots(OneByOne(c, s, order), phased);
  }
}
