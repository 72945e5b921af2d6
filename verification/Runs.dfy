/** Whole runs: what holds in every reachable state, and what the next completed sync establishes. */
module Runs {
  import opened Wrappers
  import opened Identity
  import opened Documents
  import opened Store
  import opened Handler
  import opened Engine
  import opened Convergence

  // ---------------------------------------------------------------------
  // The reference state
  // ---------------------------------------------------------------------

  /** The row holds the declared document; node_set is compared without its order. */
  predicate Holds(row: Row, spec: Spec, id: DataId, processing: Fingerprint) {
    && row.payload.id == id
    && row.payload.content == spec.content
    && row.payload.labelText == spec.labelText
    && row.payload.metadata == spec.metadata
    && AnnotationsOf(row.payload.metadata, row.payload.nodeSet) == AnnotationsOf(spec.metadata, spec.nodeSet)
    && row.payload.weight == spec.weight
    && Fresh(row, processing)
  }

  /** Exactly the declared documents are stored, each as declared, and exactly their keys are tracked. */
  ghost predicate Converged(c: Coordinates, s: State) {
    && (forall k :: k in s.declared ==>
          DataIdOf(c, k) in s.store && Holds(s.store[DataIdOf(c, k)], s.declared[k], DataIdOf(c, k), s.processing))
    && (forall id :: id in s.store ==> exists k :: k in s.declared && id == DataIdOf(c, k))
    && s.tracking.Keys == s.declared.Keys
  }

  lemma SilentKeyHolds(c: Coordinates, s: State, k: Key)
    requires Inv(c, s) && k in s.declared.Keys + s.tracking.Keys && k !in Outputs(c, s)
    ensures k in s.declared && k in s.tracking && DataIdOf(c, k) in s.store
    ensures Holds(s.store[DataIdOf(c, k)], s.declared[k], DataIdOf(c, k), s.processing)
  {
    SilentKeyIsConverged(c, s, k);
    KeyBeforeSync(c, s, k);
  }

  /** Reconciliation emits nothing. */
  ghost predicate Silent(c: Coordinates, s: State) {
    forall k :: k !in Outputs(c, s)
  }

  /** No reachable state is silent while some row is missing, superfluous or not as declared. */
  lemma SilenceMeansConverged(c: Coordinates, s: State)
    requires Inv(c, s) && Silent(c, s)
    ensures Converged(c, s)
  {
    forall k | k in s.declared.Keys + s.tracking.Keys
      ensures k in s.declared && k in s.tracking && DataIdOf(c, k) in s.store &&
              Holds(s.store[DataIdOf(c, k)], s.declared[k], DataIdOf(c, k), s.processing)
    {
      SilentKeyHolds(c, s, k);
    }
    forall id | id in s.store ensures exists k :: k in s.declared && id == DataIdOf(c, k) {
      SilentRowIsDeclared(c, s, id);
    }
  }

  lemma SilentRowIsDeclared(c: Coordinates, s: State, id: DataId)
    requires Inv(c, s) && Silent(c, s) && id in s.store
    ensures exists k :: k in s.declared && id == DataIdOf(c, k)
  {
    assert Covered(c, s.tracking, id);
    var k :| k in s.tracking && Covers(c, k, s.tracking[k], id);
    SilentKeyIsConverged(c, s, k);
  }

  /** Once committed, a key's record is all that is possible, and it is what the same desired state asks for. */
  lemma CommittedKeyIsSilent(c: Coordinates, p: Fingerprint, k: Key, desired: Option<Spec>, e: TrackEntry)
    requires OutputFor(c, p, k, desired, e).Some? && OutputFor(c, p, k, desired, e).value.intended.Live?
    ensures desired.Some?
    ensures OutputFor(c, p, k, desired, TrackEntry({OutputFor(c, p, k, desired, e).value.intended}, false)).None?
  {
    var d := OutputFor(c, p, k, desired, e).value.intended.record;
    var e' := TrackEntry({Live(d)}, false);
    assert forall r :: r in Records(e') <==> Live(r) in e'.states;
    assert d in Records(e');
  }

  lemma CommittedEntry(t: Tracking, outs: map<Key, Output>, k: Key)
    ensures EntryOf(Committed(Precommitted(t, outs), outs), k) ==
            if k !in outs then EntryOf(t, k)
            else if outs[k].intended.Live? then TrackEntry({outs[k].intended}, false)
            else TrackEntry({}, true)
  {
  }

  lemma OutputAt(c: Coordinates, s: State, k: Key)
    ensures var out := OutputFor(c, s.processing, k, Wanted(s.declared, k), EntryOf(s.tracking, k));
            if k in Outputs(c, s) then out == Some(Outputs(c, s)[k])
            else k in s.declared.Keys + s.tracking.Keys ==> out.None?
  {
  }

  lemma KeyIsSilentAfterSync(c: Coordinates, s: State, actions: seq<Action>, s': State, k: Key)
    requires Next(c, s, SyncOk(actions), s')
    ensures k !in Outputs(c, s')
  {
    CommittedEntry(s.tracking, Outputs(c, s), k);
    OutputAt(c, s, k);
    OutputAt(c, s', k);
    if k in Outputs(c, s) && Outputs(c, s)[k].intended.Live? {
      CommittedKeyIsSilent(c, s.processing, k, Wanted(s.declared, k), EntryOf(s.tracking, k));
    }
  }

  /** A completed sync is a fixed point: reconciling the same declarations again emits nothing. */
  lemma CompletedSyncIsSilent(c: Coordinates, s: State, actions: seq<Action>, s': State)
    requires Next(c, s, SyncOk(actions), s')
    ensures Silent(c, s')
  {
    forall k ensures k !in Outputs(c, s') {
      KeyIsSilentAfterSync(c, s, actions, s', k);
    }
  }

  lemma CompletedSyncConverges(c: Coordinates, s: State, actions: seq<Action>, s': State)
    requires Inv(c, s) && Next(c, s, SyncOk(actions), s')
    ensures Inv(c, s') && Silent(c, s') && Converged(c, s')
  {
    CommitKeepsInv(c, s, actions, s');
    CompletedSyncIsSilent(c, s, actions, s');
    SilenceMeansConverged(c, s');
  }

  // ---------------------------------------------------------------------
  // Runs
  // ---------------------------------------------------------------------

  /** Nothing declared, tracked or stored yet. */
  predicate Started(s: State) {
    s.declared == map[] && s.tracking == map[] && s.store == map[]
  }

  /** A record an older version wrote: under an old identity, with an old layout or without a weight. */
  ghost predicate Outdated(c: Coordinates, k: Key, r: Record) {
    || (exists v: nat, old_c: Coordinates :: v != IDENTITY_SCHEMA_VERSION && r.id == VersionedId(v, old_c, k))
    || (exists old_c: Coordinates :: r.id == SchemaOneId(old_c, k))
    || (r.id == DataIdOf(c, k) && (r.schema != RECORD_SCHEMA_VERSION || r.weight == Unrecorded))
  }

  /**
   A key an upgrade finds: its records carry its own id or are outdated, one at least is outdated,
   and the weight of a row under the current id is recorded or older than weight records.
   */
  ghost predicate OutdatedKey(c: Coordinates, k: Key, e: TrackEntry, slot: Slot) {
    && (forall r :: r in Records(e) ==> r.id == DataIdOf(c, k) || Outdated(c, k, r))
    && (exists r :: r in Records(e) && Outdated(c, k, r))
    && (slot.Some? ==>
          && slot.value.payload.id == DataIdOf(c, k)
          && exists r :: r in Records(e) && r.weight in {Unrecorded, Recorded(slot.value.payload.weight)})
  }

  /** A store of an older version: every row is covered, and each key is outdated or in order. */
  ghost predicate Upgraded(c: Coordinates, s: State) {
    && s.declared.Keys + s.tracking.Keys <= s.ever
    && (forall k :: k in s.tracking ==>
          var e, slot := s.tracking[k], SlotOf(s.store, DataIdOf(c, k));
          OutdatedKey(c, k, e, slot) || KeyInv(c, k, e, slot))
    && (forall id {:trigger Covered(c, s.tracking, id)} :: id in s.store ==> Covered(c, s.tracking, id))
  }

  lemma OutdatedIdIsForeign(c: Coordinates, k: Key, r: Record)
    requires Outdated(c, k, r)
    ensures r.id == DataIdOf(c, k) || Foreign(c, r.id)
    ensures r.id == DataIdOf(c, k) ==> r.schema != RECORD_SCHEMA_VERSION || r.weight == Unrecorded
  {
    if v: nat, old_c: Coordinates :| v != IDENTITY_SCHEMA_VERSION && r.id == VersionedId(v, old_c, k) {
      forall k' ensures DataIdOf(c, k') != r.id {
        OldIdsAreForeign(c, old_c, v, k, k');
      }
      assert Foreign(c, r.id);
    } else if old_c: Coordinates :| r.id == SchemaOneId(old_c, k) {
      forall k' ensures DataIdOf(c, k') != r.id {
        OldIdsAreForeign(c, old_c, 1, k, k');
      }
      assert Foreign(c, r.id);
    }
  }

  /** An outdated record keeps its key from being taken for settled, whatever else is recorded. */
  lemma OutdatedKeyIsInOrder(c: Coordinates, k: Key, e: TrackEntry, slot: Slot)
    requires OutdatedKey(c, k, e, slot)
    ensures KeyInv(c, k, e, slot)
  {
    forall r | r in Records(e) && Outdated(c, k, r)
      ensures r.id == DataIdOf(c, k) || Foreign(c, r.id)
      ensures r.id == DataIdOf(c, k) ==> r.schema != RECORD_SCHEMA_VERSION || r.weight == Unrecorded
    {
      OutdatedIdIsForeign(c, k, r);
    }
    var q :| q in Records(e) && Outdated(c, k, q);
    assert forall r :: Settled(c, k, e, r) ==> SameDerivativeInputs(q, r) && q.weight == r.weight;
  }

  lemma UpgradeEstablishesInv(c: Coordinates, s: State)
    requires Upgraded(c, s)
    ensures Inv(c, s)
  {
    forall k | k in s.tracking ensures KeyInv(c, k, s.tracking[k], SlotOf(s.store, DataIdOf(c, k))) {
      if OutdatedKey(c, k, s.tracking[k], SlotOf(s.store, DataIdOf(c, k))) {
        OutdatedKeyIsInOrder(c, k, s.tracking[k], SlotOf(s.store, DataIdOf(c, k)));
      }
    }
  }

  ghost predicate IsRun(c: Coordinates, states: seq<State>, events: seq<Event>) {
    && |states| == |events| + 1
    && (Started(states[0]) || Upgraded(c, states[0]))
    && forall i :: 0 <= i < |events| ==> StepAt(c, states, events, i)
  }

  ghost predicate StepAt(c: Coordinates, states: seq<State>, events: seq<Event>, i: nat)
    requires i < |events| && |states| == |events| + 1
  {
    Next(c, states[i], events[i], states[i + 1])
  }

  lemma StepKeepsInv(c: Coordinates, s: State, e: Event, s': State)
    requires Inv(c, s) && Next(c, s, e, s')
    ensures Inv(c, s')
  {
    match e
    case Declare(_, _) =>
    case Undeclare(_) =>
    case ChangeConfig(_, lossy) =>
      forall k | k in s'.tracking ensures KeyInv(c, k, s'.tracking[k], SlotOf(s'.store, DataIdOf(c, k))) {
        assert Records(s'.tracking[k]) == Records(s.tracking[k]);
      }
      forall id | id in s'.store ensures Covered(c, s'.tracking, id) {
        assert Covered(c, s.tracking, id);
        var k :| k in s.tracking && Covers(c, k, s.tracking[k], id);
        assert Records(s'.tracking[k]) == Records(s.tracking[k]);
        assert k in s'.tracking && Covers(c, k, s'.tracking[k], id);
      }
    case SyncOk(actions) => CommitKeepsInv(c, s, actions, s');
    case SyncCrash(actions, left) => CrashKeepsInv(c, s, actions, left, s');
  }

  lemma RunStartsInOrder(c: Coordinates, s: State)
    requires Started(s) || Upgraded(c, s)
    ensures Inv(c, s)
  {
    if Upgraded(c, s) {
      UpgradeEstablishesInv(c, s);
    } else {
      assert s.declared.Keys + s.tracking.Keys == {};
    }
  }

  lemma InvAt(c: Coordinates, states: seq<State>, events: seq<Event>, i: nat)
    requires i < |events| && |states| == |events| + 1 && StepAt(c, states, events, i) && Inv(c, states[i])
    ensures Inv(c, states[i + 1])
  {
    StepKeepsInv(c, states[i], events[i], states[i + 1]);
  }

  lemma StepsKeepInv(c: Coordinates, states: seq<State>, events: seq<Event>, i: nat)
    requires |states| == |events| + 1 && i < |states| && Inv(c, states[0])
    requires forall j :: 0 <= j < |events| ==> StepAt(c, states, events, j)
    ensures Inv(c, states[i])
  {
    for j := 0 to i
      invariant Inv(c, states[j])
    {
      InvAt(c, states, events, j);
    }
  }

  lemma RunKeepsInv(c: Coordinates, states: seq<State>, events: seq<Event>, i: nat)
    requires IsRun(c, states, events) && i < |states|
    ensures Inv(c, states[i])
  {
    RunStartsInOrder(c, states[0]);
    StepsKeepInv(c, states, events, i);
  }

  lemma SyncStepIsSilent(c: Coordinates, s: State, e: Event, s': State)
    requires Inv(c, s) && Next(c, s, e, s') && e.SyncOk?
    ensures Silent(c, s')
  {
    match e
    case SyncOk(actions) => CompletedSyncIsSilent(c, s, actions, s');
  }

  lemma SyncInRunIsSilent(c: Coordinates, states: seq<State>, events: seq<Event>, i: nat)
    requires IsRun(c, states, events) && i < |events| && events[i].SyncOk?
    ensures Silent(c, states[i + 1])
  {
    RunKeepsInv(c, states, events, i);
    assert StepAt(c, states, events, i);
    SyncStepIsSilent(c, states[i], events[i], states[i + 1]);
  }

  /**
   The main result. In any run, from a fresh start or from an upgraded store, however often syncs
   died in between and whatever the desired state did, a completed sync reaches the reference state
   and leaves nothing to do; and whenever nothing is left to do the reference state holds.
   */
  lemma EveryRunConverges(c: Coordinates, states: seq<State>, events: seq<Event>, i: nat)
    requires IsRun(c, states, events) && i < |states|
    ensures 0 < i && events[i - 1].SyncOk? ==> Silent(c, states[i])
    ensures Silent(c, states[i]) ==> Converged(c, states[i])
  {
    if 0 < i && events[i - 1].SyncOk? {
      SyncInRunIsSilent(c, states, events, i - 1);
    }
    RunKeepsInv(c, states, events, i);
    if Silent(c, states[i]) {
      SilenceMeansConverged(c, states[i]);
    }
  }

  // ---------------------------------------------------------------------
  // Nothing undeclared exists
  // ---------------------------------------------------------------------

  ghost predicate OnlyCurrentIds(c: Coordinates, t: Tracking) {
    forall k, r :: k in t && r in Records(t[k]) ==> r.id == DataIdOf(c, k)
  }

  lemma StepKeepsCurrentIds(c: Coordinates, s: State, e: Event, s': State)
    requires OnlyCurrentIds(c, s.tracking) && Next(c, s, e, s')
    ensures OnlyCurrentIds(c, s'.tracking)
  {
    forall k, r | k in s'.tracking && r in Records(s'.tracking[k]) ensures r.id == DataIdOf(c, k) {
      RecordIsOldOrIntended(c, s, e, s', k, r);
    }
  }

  lemma RecordIsOldOrIntended(c: Coordinates, s: State, e: Event, s': State, k: Key, r: Record)
    requires Next(c, s, e, s') && k in s'.tracking && r in Records(s'.tracking[k])
    ensures (k in s.tracking && r in Records(s.tracking[k])) || r.id == DataIdOf(c, k)
  {
    StatesGrowByIntended(c, s, e, s', k);
    OutputAt(c, s, k);
    assert Live(r) in s'.tracking[k].states;
  }

  lemma StatesGrowByIntended(c: Coordinates, s: State, e: Event, s': State, k: Key)
    requires Next(c, s, e, s') && k in s'.tracking
    ensures s'.tracking[k].states <=
            EntryOf(s.tracking, k).states + (if k in Outputs(c, s) then {Outputs(c, s)[k].intended} else {})
  {
    match e
    case SyncOk(_) => CommittedEntry(s.tracking, Outputs(c, s), k);
    case _ =>
  }

  lemma CurrentIdsAt(c: Coordinates, states: seq<State>, events: seq<Event>, i: nat)
    requires i < |events| && |states| == |events| + 1 && StepAt(c, states, events, i)
    requires OnlyCurrentIds(c, states[i].tracking)
    ensures OnlyCurrentIds(c, states[i + 1].tracking)
  {
    StepKeepsCurrentIds(c, states[i], events[i], states[i + 1]);
  }

  lemma RunKeepsCurrentIds(c: Coordinates, states: seq<State>, events: seq<Event>, i: nat)
    requires IsRun(c, states, events) && Started(states[0]) && i < |states|
    ensures OnlyCurrentIds(c, states[i].tracking)
  {
    for j := 0 to i
      invariant OnlyCurrentIds(c, states[j].tracking)
    {
      CurrentIdsAt(c, states, events, j);
    }
  }

  /** From a fresh start, every stored row belongs to a key that was declared at some time. */
  lemma NothingUndeclaredExists(c: Coordinates, states: seq<State>, events: seq<Event>, i: nat)
    requires IsRun(c, states, events) && Started(states[0]) && i < |states|
    ensures OnlyCurrentIds(c, states[i].tracking)
    ensures forall id :: id in states[i].store ==> exists k :: k in states[i].ever && id == DataIdOf(c, k)
  {
    RunKeepsCurrentIds(c, states, events, i);
    RunKeepsInv(c, states, events, i);
    forall id | id in states[i].store ensures exists k :: k in states[i].ever && id == DataIdOf(c, k) {
      RowWasDeclared(c, states[i], id);
    }
  }

  lemma RowWasDeclared(c: Coordinates, s: State, id: DataId)
    requires Inv(c, s) && OnlyCurrentIds(c, s.tracking) && id in s.store
    ensures exists k :: k in s.ever && id == DataIdOf(c, k)
  {
    assert Covered(c, s.tracking, id);
  }

  // ---------------------------------------------------------------------
  // node_set order
  // ---------------------------------------------------------------------

  function StoredNodeSet(store: Table, id: DataId): Option<Option<seq<string>>> {
    if id in store then Some(store[id].payload.nodeSet) else None
  }

  lemma WrittenNodeSet(c: Coordinates, p: Fingerprint, k: Key, spec: Spec, e: TrackEntry, slot: Slot, b: Batch)
    requires OutputFor(c, p, k, Some(spec), e).Some?
    requires Plans(OutputFor(c, p, k, Some(spec), e).value.action, b)
    ensures var now := AfterBatch(slot, b, DataIdOf(c, k), p); now.Some? && now.value.payload.nodeSet == spec.nodeSet
  {
  }

  /** A declared document is written exactly when its record is not alone or may be missing. */
  lemma WrittenExactly(c: Coordinates, s: State, k: Key)
    requires Inv(c, s) && k in s.declared
    ensures k in Outputs(c, s) <==>
            Uncertain(EntryOf(s.tracking, k)) ||
            Records(EntryOf(s.tracking, k)) != {RecordFor(s.declared[k], DataIdOf(c, k), s.processing)}
  {
    OutputAt(c, s, k);
    KeyBeforeSync(c, s, k);
    if k !in Outputs(c, s) {
      SilentKeyIsConverged(c, s, k);
    }
  }

  /**
   After a completed sync the stored node_set has the declared order exactly when the document's
   only possible record was not the declared one, or might have been missing, or the order was right
   already: a mere reordering is outside every fingerprint.
   */
  lemma NodeSetOrderAfterSync(c: Coordinates, s: State, actions: seq<Action>, s': State, k: Key)
    requires Inv(c, s) && Next(c, s, SyncOk(actions), s') && k in s.declared
    ensures StoredNodeSet(s'.store, DataIdOf(c, k)) == Some(s.declared[k].nodeSet) <==>
            || Uncertain(EntryOf(s.tracking, k))
            || Records(EntryOf(s.tracking, k)) != {RecordFor(s.declared[k], DataIdOf(c, k), s.processing)}
            || StoredNodeSet(s.store, DataIdOf(c, k)) == Some(s.declared[k].nodeSet)
  {
    WrittenExactly(c, s, k);
    if k in Outputs(c, s) {
      WrittenNodeSetIsStored(c, s, actions, s', k);
    } else {
      SilentNodeSetStays(c, s, actions, s', k);
    }
  }

  lemma WrittenNodeSetIsStored(c: Coordinates, s: State, actions: seq<Action>, s': State, k: Key)
    requires Inv(c, s) && Next(c, s, SyncOk(actions), s') && k in s.declared && k in Outputs(c, s)
    ensures StoredNodeSet(s'.store, DataIdOf(c, k)) == Some(s.declared[k].nodeSet)
  {
    var b, id := BatchOf(Collect(actions)), DataIdOf(c, k);
    BatchActsPerId(s.store, b, s.processing, id);
    RoundPlans(c, s, actions, k);
    OutputAt(c, s, k);
    WrittenNodeSet(c, s.processing, k, s.declared[k], EntryOf(s.tracking, k), SlotOf(s.store, id), b);
  }

  lemma SilentNodeSetStays(c: Coordinates, s: State, actions: seq<Action>, s': State, k: Key)
    requires Inv(c, s) && Next(c, s, SyncOk(actions), s') && k in s.declared && k !in Outputs(c, s)
    ensures StoredNodeSet(s'.store, DataIdOf(c, k)) == StoredNodeSet(s.store, DataIdOf(c, k))
  {
    var b, id := BatchOf(Collect(actions)), DataIdOf(c, k);
    BatchActsPerId(s.store, b, s.processing, id);
    ApplySparesSilentKeys(c, s, actions, k, SlotOf(s'.store, id));
  }

  /** The same document but for the order of its nodes. */
  predicate Reordered(a: Spec, b: Spec) {
    a == b.(nodeSet := a.nodeSet) && AnnotationsOf(a.metadata, a.nodeSet) == AnnotationsOf(b.metadata, b.nodeSet)
  }

  /** In any state, redeclaring a synced document with its nodes reordered leaves the stored order as it was. */
  lemma ReorderingIsNeverWritten(c: Coordinates, s: State, actions: seq<Action>, synced: State, k: Key, spec: Spec,
                                 again: seq<Action>, s': State)
    requires Inv(c, s) && k in s.declared && Reordered(spec, s.declared[k])
    requires Next(c, s, SyncOk(actions), synced)
    requires Next(c, Declared(synced, k, spec), SyncOk(again), s')
    ensures StoredNodeSet(s'.store, DataIdOf(c, k)) == StoredNodeSet(synced.store, DataIdOf(c, k))
  {
    var redeclared := Declared(synced, k, spec);
    CompletedSyncConverges(c, s, actions, synced);
    StepKeepsInv(c, synced, Declare(k, spec), redeclared);
    WrittenExactly(c, synced, k);
    WrittenExactly(c, redeclared, k);
    SilentNodeSetStays(c, redeclared, again, s', k);
  }

  lemma {:induction false} ListsExist(outs: map<Key, Output>) returns (actions: seq<Action>)
    requires forall k :: k in outs ==> outs[k].action.key == k
    ensures Lists(actions, outs)
    decreases |outs|
  {
    actions := [];
    if k :| k in outs {
      var rest := outs - {k};
      assert |rest| < |outs| by {
        assert rest.Keys == outs.Keys - {k};
        assert |rest.Keys| < |outs.Keys|;
      }
      var others := ListsExist(rest);
      actions := others + [outs[k].action];
      ListsOneMore(outs, k, others, rest);
    }
  }

  lemma ListsOneMore(outs: map<Key, Output>, k: Key, others: seq<Action>, rest: map<Key, Output>)
    requires k in outs && outs[k].action.key == k && rest == outs - {k} && Lists(others, rest)
    ensures Lists(others + [outs[k].action], outs)
  {
    var actions := others + [outs[k].action];
    assert actions[|others|] == outs[k].action;
    forall q | q in outs ensures outs[q].action in actions {
      if q != k {
        assert q in rest && rest[q] == outs[q];
      }
    }
    forall a | a in actions ensures a.key in outs && outs[a.key].action == a {
      if a != outs[k].action {
        assert a in others;
      }
    }
  }

  /** Every state has a completed sync. */
  lemma SyncExists(c: Coordinates, s: State) returns (actions: seq<Action>, s': State)
    ensures Next(c, s, SyncOk(actions), s')
  {
    forall k | k in Outputs(c, s) ensures Outputs(c, s)[k].action.key == k {
      RoundActsOnOwnId(c, s.processing, s.declared, s.tracking, k);
    }
    actions := ListsExist(Outputs(c, s));
    s' := s.(tracking := Committed(Precommitted(s.tracking, Outputs(c, s)), Outputs(c, s)),
             store := ApplyBatch(s.store, BatchOf(Collect(actions)), s.processing));
  }

  /** A document synced for the first time and then redeclared with its nodes reordered keeps the old order. */
  lemma ReorderingIsLost(c: Coordinates, s: State, first: seq<Action>, synced: State, k: Key, spec: Spec,
                         second: seq<Action>, last: State)
    requires Inv(c, s) && k in s.declared && k !in s.tracking
    requires Reordered(spec, s.declared[k]) && spec.nodeSet != s.declared[k].nodeSet
    requires Next(c, s, SyncOk(first), synced) && Next(c, Declared(synced, k, spec), SyncOk(second), last)
    ensures last.declared[k] == spec && StoredNodeSet(last.store, DataIdOf(c, k)) != Some(spec.nodeSet)
  {
    NodeSetOrderAfterSync(c, s, first, synced, k);
    ReorderingIsNeverWritten(c, s, first, synced, k, spec, second, last);
  }

  function Declared(s: State, k: Key, spec: Spec): State {
    s.(declared := s.declared[k := spec], ever := s.ever + {k})
  }

  lemma FourSteps(c: Coordinates, a: State, b: State, d: State, e: State, f: State,
                  ab: Event, bd: Event, de: Event, ef: Event)
    requires Started(a)
    requires Next(c, a, ab, b) && Next(c, b, bd, d) && Next(c, d, de, e) && Next(c, e, ef, f)
    ensures IsRun(c, [a, b, d, e, f], [ab, bd, de, ef])
  {
    var states, events := [a, b, d, e, f], [ab, bd, de, ef];
    forall i | 0 <= i < 4 ensures StepAt(c, states, events, i) {
      if i == 0 {
      } else if i == 1 {
      } else if i == 2 {
      }
    }
  }

  lemma DeclaringIsAStep(c: Coordinates, s: State, k: Key, spec: Spec)
    requires Inv(c, s)
    ensures Next(c, s, Declare(k, spec), Declared(s, k, spec)) && Inv(c, Declared(s, k, spec))
  {
    StepKeepsInv(c, s, Declare(k, spec), Declared(s, k, spec));
  }

  lemma ReorderingRun(c: Coordinates, start: State, k: Key, spec: Spec, reordered: Spec)
    returns (first: seq<Action>, synced: State, second: seq<Action>, last: State)
    requires Started(start) && Reordered(reordered, spec) && reordered.nodeSet != spec.nodeSet
    ensures Next(c, start, Declare(k, spec), Declared(start, k, spec))
    ensures Next(c, Declared(start, k, spec), SyncOk(first), synced)
    ensures Next(c, synced, Declare(k, reordered), Declared(synced, k, reordered))
    ensures Next(c, Declared(synced, k, reordered), SyncOk(second), last)
    ensures k in last.declared && StoredNodeSet(last.store, DataIdOf(c, k)) != Some(last.declared[k].nodeSet)
  {
    var declared := Declared(start, k, spec);
    RunStartsInOrder(c, start);
    DeclaringIsAStep(c, start, k, spec);
    first, synced := SyncExists(c, declared);
    CompletedSyncConverges(c, declared, first, synced);
    DeclaringIsAStep(c, synced, k, reordered);
    second, last := SyncExists(c, Declared(synced, k, reordered));
    ReorderingIsLost(c, declared, first, synced, k, reordered, second, last);
  }

  /**
   For any document and any reordering of its nodes there is a run that declares it, syncs, redeclares
   it reordered and syncs again, and ends with the stored order wrong.
   */
  lemma ReorderedNodeSetIsNotWritten(c: Coordinates, start: State, k: Key, spec: Spec, reordered: Spec)
    returns (first: seq<Action>, synced: State, second: seq<Action>, last: State)
    requires Started(start) && Reordered(reordered, spec) && reordered.nodeSet != spec.nodeSet
    ensures IsRun(c, [start, Declared(start, k, spec), synced, Declared(synced, k, reordered), last],
                  [Declare(k, spec), SyncOk(first), Declare(k, reordered), SyncOk(second)])
    ensures k in last.declared && StoredNodeSet(last.store, DataIdOf(c, k)) != Some(last.declared[k].nodeSet)
  {
    first, synced, second, last := ReorderingRun(c, start, k, spec, reordered);
    FourSteps(c, start, Declared(start, k, spec), synced, Declared(synced, k, reordered), last,
              Declare(k, spec), SyncOk(first), Declare(k, reordered), SyncOk(second));
  }

  /** Two nodes swapped are such a reordering. */
  lemma SwappingReorders(spec: Spec, m: string, n: string)
    requires m != n && spec.nodeSet == Some([m, n])
    ensures Reordered(spec.(nodeSet := Some([n, m])), spec) && Some([n, m]) != spec.nodeSet
  {
    assert [m, n][0] != [n, m][0];
    assert multiset([m, n]) == multiset([n, m]);
  }
}
