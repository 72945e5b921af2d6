/**
 Crash-safe convergence. From every state that any run of declarations, removals, config changes,
 completed syncs and interrupted syncs can reach, one completed sync leaves exactly the declared
 documents, complete, with their own derivatives under the current profile.
 */
module Convergence {
  import opened Wrappers
  import opened Identity
  import opened Documents
  import opened Store
  import opened Handler
  import opened Engine

  /** `ever` collects every key that was declared at some time. */
  datatype State = State(declared: map<Key, Spec>, processing: Fingerprint, tracking: Tracking, store: Table,
                         ever: set<Key>)

  datatype Event =
    | Declare(key: Key, spec: Spec)
    | Undeclare(key: Key)
    | ChangeConfig(processing: Fingerprint, lossy: bool)
    | SyncOk(actions: seq<Action>)
    | SyncCrash(actions: seq<Action>, left: Table)

  function Outputs(c: Coordinates, s: State): map<Key, Output> {
    Round(c, s.processing, s.declared, s.tracking)
  }

  /**
   SyncCrash stands for a failure before, inside or after apply, but before commit: the precommitted
   tracking stays and the store is any that CrashOutcome allows. Lossy invalidation is optional.
   */
  ghost predicate Next(c: Coordinates, s: State, e: Event, s': State) {
    match e
    case Declare(k, spec) => s' == s.(declared := s.declared[k := spec], ever := s.ever + {k})
    case Undeclare(k) => s' == s.(declared := s.declared - {k})
    case ChangeConfig(p, lossy) => s' == s.(processing := p,
        tracking := if lossy then Invalidated(s.tracking) else s.tracking)
    case SyncOk(actions) =>
      && Lists(actions, Outputs(c, s))
      && s' == s.(tracking := Committed(Precommitted(s.tracking, Outputs(c, s)), Outputs(c, s)),
                  store := ApplyBatch(s.store, BatchOf(Collect(actions)), s.processing))
    case SyncCrash(actions, left) =>
      && Lists(actions, Outputs(c, s))
      && CrashOutcome(s.store, BatchOf(Collect(actions)), s.processing, left)
      && s' == s.(tracking := Precommitted(s.tracking, Outputs(c, s)), store := left)
  }

  // ---------------------------------------------------------------------
  // The invariant, key by key
  // ---------------------------------------------------------------------

  ghost predicate Foreign(c: Coordinates, id: DataId) {
    forall k :: DataIdOf(c, k) != id
  }

  /** The row is what a converged document with record `r` looks like, label aside. */
  predicate Serves(slot: Slot, r: Record) {
    && slot.Some?
    && Fresh(slot.value, r.processing)
    && OwnDerivation(slot.value.payload).content == r.content
    && OwnDerivation(slot.value.payload).annotations == r.annotations
    && r.weight == Recorded(slot.value.payload.weight)
  }

  /** Every possible record agrees with `r` on all that shapes derivatives, and `r` is current. */
  ghost predicate Settled(c: Coordinates, k: Key, e: TrackEntry, r: Record) {
    && !Uncertain(e)
    && r.id == DataIdOf(c, k) && r.schema == RECORD_SCHEMA_VERSION && r.weight.Recorded?
    && forall q :: q in Records(e) ==> SameDerivativeInputs(q, r) && q.weight == r.weight
  }

  ghost predicate KeyInv(c: Coordinates, k: Key, e: TrackEntry, slot: Slot) {
    && Records(e) != {}
    && (forall r :: r in Records(e) ==> r.id == DataIdOf(c, k) || Foreign(c, r.id))
    && (slot.Some? ==>
          && slot.value.payload.id == DataIdOf(c, k)
          && exists r :: r in Records(e) && r.weight in {Unrecorded, Recorded(slot.value.payload.weight)})
    && (forall r :: r in Records(e) && Settled(c, k, e, r) ==>
          Serves(slot, r) && exists q :: q in Records(e) && q.labelText == slot.value.payload.labelText)
  }

  /** A key that was never tracked has no row. */
  ghost predicate KeyPre(c: Coordinates, k: Key, e: TrackEntry, slot: Slot) {
    KeyInv(c, k, e, slot) || (e == TrackEntry({}, true) && slot.None?)
  }

  /** The id belongs to a tracked key or is named by one of its records. */
  ghost predicate Covers(c: Coordinates, k: Key, e: TrackEntry, id: DataId) {
    id == DataIdOf(c, k) || exists r :: r in Records(e) && r.id == id
  }

  ghost predicate Covered(c: Coordinates, t: Tracking, id: DataId) {
    exists k :: k in t && Covers(c, k, t[k], id)
  }

  ghost predicate Inv(c: Coordinates, s: State) {
    && (forall k :: k in s.tracking ==> KeyInv(c, k, s.tracking[k], SlotOf(s.store, DataIdOf(c, k))))
    && (forall id {:trigger Covered(c, s.tracking, id)} :: id in s.store ==> Covered(c, s.tracking, id))
    && s.declared.Keys + s.tracking.Keys <= s.ever
  }

  // ---------------------------------------------------------------------
  // One key through one sync
  // ---------------------------------------------------------------------

  /** What an action puts into the batch for its own id. */
  predicate Plans(a: Action, b: Batch) {
    && (a.Delete? ==> a.id in b.deletes && a.id !in b.purges && a.id !in b.payloads)
    && (a.Write? ==>
          && a.id in b.payloads && b.payloads[a.id] == a.payload
          && (a.id in b.deletes <==> a.op.Recreate?)
          && (a.id in b.purges <==> a.op.Replace?)
          && (!a.op.UpdateMetadata? ==> b.cognify))
  }

  /** A write that rebuilds leaves the precommitted entry unsettled: its records disagree, or may be missing. */
  lemma RebuildUnsettles(c: Coordinates, p: Fingerprint, k: Key, spec: Spec, e: TrackEntry, r: Record)
    requires OutputFor(c, p, k, Some(spec), e).Some?
    requires !OutputFor(c, p, k, Some(spec), e).value.action.op.UpdateMetadata?
    ensures !Settled(c, k, Noted(e, OutputFor(c, p, k, Some(spec), e).value.intended), r)
  {
    var d := RecordFor(spec, DataIdOf(c, k), p);
    var e' := Noted(e, Live(d));
    RecordsOfNoted(e, Live(d));
    assert d in Records(e');
    if Settled(c, k, e', r) {
      assert SameDerivativeInputs(d, r) && d.weight == r.weight;
      assert forall q :: q in Records(e) ==> SameDerivativeInputs(q, d) && q.weight == d.weight;
    }
  }

  /** Every row a stopped batch can leave at the action's id carries a weight the entry knows. */
  lemma StoppedWeight(c: Coordinates, p: Fingerprint, k: Key, desired: Option<Spec>, e: TrackEntry, slot: Slot,
                      b: Batch, now: Slot)
    requires KeyPre(c, k, e, slot)
    requires OutputFor(c, p, k, desired, e).Some?
    requires Plans(OutputFor(c, p, k, desired, e).value.action, b)
    requires Stopped(slot, b, DataIdOf(c, k), p, now) && now.Some?
    ensures now.value.payload.id == DataIdOf(c, k)
    ensures || (slot.Some? && now.value.payload.weight == slot.value.payload.weight)
            || (desired.Some? && now.value.payload.weight == desired.value.weight)
  {
  }

  /** Wherever the batch stops, the precommitted entry still accounts for the row. */
  lemma CrashKeepsKey(c: Coordinates, p: Fingerprint, k: Key, desired: Option<Spec>, e: TrackEntry, slot: Slot,
                      b: Batch, now: Slot)
    requires if desired.Some? then KeyPre(c, k, e, slot) else KeyInv(c, k, e, slot)
    requires OutputFor(c, p, k, desired, e).Some?
    requires Plans(OutputFor(c, p, k, desired, e).value.action, b)
    requires Stopped(slot, b, DataIdOf(c, k), p, now)
    ensures KeyInv(c, k, Noted(e, OutputFor(c, p, k, desired, e).value.intended), now)
  {
    var out := OutputFor(c, p, k, desired, e).value;
    var e' := Noted(e, out.intended);
    RecordsOfNoted(e, out.intended);
    if now.Some? {
      StoppedWeight(c, p, k, desired, e, slot, b, now);
      assert exists r :: r in Records(e') && r.weight in {Unrecorded, Recorded(now.value.payload.weight)} by {
        if desired.Some? {
          assert out.intended.record in Records(e');
        }
        assert forall r :: r in Records(e) ==> r in Records(e');
      }
    }
    if out.action.Write? {
      if out.action.op.UpdateMetadata? {
        RelabelKeepsKey(c, p, k, desired.value, e, slot, b, now);
      } else {
        forall r ensures !Settled(c, k, e', r) {
          RebuildUnsettles(c, p, k, desired.value, e, r);
        }
      }
    }
  }

  /** Re-adding a settled document changes its label and nothing else. */
  lemma RelabelKeepsKey(c: Coordinates, p: Fingerprint, k: Key, spec: Spec, e: TrackEntry, slot: Slot, b: Batch,
                        now: Slot)
    requires KeyPre(c, k, e, slot)
    requires OutputFor(c, p, k, Some(spec), e).Some?
    requires OutputFor(c, p, k, Some(spec), e).value.action.op.UpdateMetadata?
    requires Plans(OutputFor(c, p, k, Some(spec), e).value.action, b)
    requires Stopped(slot, b, DataIdOf(c, k), p, now)
    ensures forall r :: r in Records(e) + {RecordFor(spec, DataIdOf(c, k), p)} ==> Serves(slot, r) && Serves(now, r)
    ensures now.value.payload.labelText in {slot.value.payload.labelText, spec.labelText}
    ensures exists q :: q in Records(e) && q.labelText == slot.value.payload.labelText
    ensures now.value.fragments == slot.value.fragments
  {
    var d := RecordFor(spec, DataIdOf(c, k), p);
    var r :| r in Records(e);
    assert Settled(c, k, e, r);
  }

  lemma RecordsOfNoted(e: TrackEntry, intended: TrackedState)
    ensures Records(Noted(e, intended)) == Records(e) + (if intended.Live? then {intended.record} else {})
  {
    var s := Noted(e, intended);
    forall r ensures r in Records(s) <==> (r in Records(e) || intended == Live(r)) {
      assert r in Records(s) <==> Live(r) in s.states;
      assert r in Records(e) <==> Live(r) in e.states;
    }
  }

  /** A completed batch makes the row what the committed record promises, or removes it. */
  lemma CommitSettlesKey(c: Coordinates, p: Fingerprint, k: Key, desired: Option<Spec>, e: TrackEntry, slot: Slot,
                         b: Batch)
    requires KeyPre(c, k, e, slot)
    requires OutputFor(c, p, k, desired, e).Some?
    requires Plans(OutputFor(c, p, k, desired, e).value.action, b)
    ensures var out := OutputFor(c, p, k, desired, e).value;
            var now := AfterBatch(slot, b, DataIdOf(c, k), p);
            if out.intended.Live? then KeyInv(c, k, TrackEntry({out.intended}, false), now) else now.None?
  {
    var out := OutputFor(c, p, k, desired, e).value;
    if out.intended.Live? {
      var d := out.intended.record;
      var e' := TrackEntry({out.intended}, false);
      assert Records(e') == {d} by {
        assert forall r :: r in Records(e') <==> Live(r) in e'.states;
      }
      var now := AfterBatch(slot, b, DataIdOf(c, k), p);
      assert Serves(now, d);
      assert now.value.payload.labelText == d.labelText;
    }
  }

  // ---------------------------------------------------------------------
  // All keys through one sync
  // ---------------------------------------------------------------------

  /** A recorded id other than the key's own belongs to no key at all. */
  lemma StaleIdsAreForeign(c: Coordinates, s: State, k: Key, id: DataId)
    requires Inv(c, s) && k in Outputs(c, s) && id in Outputs(c, s)[k].action.stale
    ensures Foreign(c, id) && k in s.tracking && exists r :: r in Records(s.tracking[k]) && r.id == id
  {
    var r :| r in Records(EntryOf(s.tracking, k)) && r.id == id && r.id != DataIdOf(c, k);
  }

  lemma RoundPlans(c: Coordinates, s: State, actions: seq<Action>, k: Key)
    requires Inv(c, s) && Lists(actions, Outputs(c, s)) && k in Outputs(c, s)
    ensures Plans(Outputs(c, s)[k].action, BatchOf(Collect(actions)))
  {
    var act := Outputs(c, s)[k].action;
    RoundActsOncePerId(c, s.processing, s.declared, s.tracking, actions);
    RoundActsOnOwnId(c, s.processing, s.declared, s.tracking, k);
    CollectGathers(actions, act.id);
    forall a | a in actions ensures act.id !in a.stale && (a.id == act.id ==> a == act) {
      if act.id in a.stale {
        StaleIdsAreForeign(c, s, a.key, act.id);
      }
    }
    assert act in actions;
    if act.Write? {
      CollectPayload(actions, act);
      assert Writes(act, act.id);
      assert NeedsCognify(act) || act.op.UpdateMetadata?;
      assert Recreates(act, act.id) <==> act.op.Recreate?;
      assert Purges(act, act.id) <==> act.op.Replace?;
    } else {
      assert Removes(act, act.id);
    }
  }

  ghost predicate Reweighted(s: State, k: Key)
    requires k in s.declared
  {
    exists r :: r in Records(EntryOf(s.tracking, k)) && !SameWeight(r, s.declared[k])
  }

  lemma RecreatedExactly(c: Coordinates, s: State, k: Key)
    requires k in s.declared
    ensures k in Outputs(c, s) ==>
              Outputs(c, s)[k].action.Write? && (Outputs(c, s)[k].action.op.Recreate? <==> Reweighted(s, k))
    ensures k !in Outputs(c, s) ==> !Reweighted(s, k)
  {
    var e := EntryOf(s.tracking, k);
    WriteExactly(c, s.processing, k, s.declared[k], Records(e), Uncertain(e));
  }

  lemma KeptRow(b: Batch, id: DataId, slot: Slot, p: Fingerprint, now: Slot)
    requires slot.Some? && id !in b.deletes && Stopped(slot, b, id, p, now)
    ensures now.Some? && now.value.payload.weight == slot.value.payload.weight
  {
  }

  /**
   The row of a declared document is deleted exactly when some possible record has another weight.
   Otherwise it stays, with its weight, wherever the batch stops and after the sync.
   */
  lemma RowGoesWithItsWeightOnly(c: Coordinates, s: State, actions: seq<Action>, k: Key, now: Slot)
    requires Inv(c, s) && Lists(actions, Outputs(c, s)) && k in s.declared && DataIdOf(c, k) in s.store
    requires Stopped(SlotOf(s.store, DataIdOf(c, k)), BatchOf(Collect(actions)), DataIdOf(c, k), s.processing, now)
    ensures DataIdOf(c, k) in BatchOf(Collect(actions)).deletes <==> Reweighted(s, k)
    ensures !Reweighted(s, k) ==> now.Some? && now.value.payload.weight == s.store[DataIdOf(c, k)].payload.weight
    ensures !Reweighted(s, k) ==> DataIdOf(c, k) in ApplyBatch(s.store, BatchOf(Collect(actions)), s.processing)
  {
    var b, id := BatchOf(Collect(actions)), DataIdOf(c, k);
    RecreatedExactly(c, s, k);
    if k in Outputs(c, s) {
      RoundPlans(c, s, actions, k);
      RoundActsOnOwnId(c, s.processing, s.declared, s.tracking, k);
    } else {
      UntouchedId(c, s, actions, k);
    }
    if !Reweighted(s, k) {
      KeptRow(b, id, SlotOf(s.store, id), s.processing, now);
      BatchActsPerId(s.store, b, s.processing, id);
      KeptRow(b, id, SlotOf(s.store, id), s.processing, AfterBatch(SlotOf(s.store, id), b, id, s.processing));
    }
  }

  /** The ids a batch deletes or writes are those its round names. */
  lemma BatchTouches(c: Coordinates, s: State, actions: seq<Action>, id: DataId)
    requires Inv(c, s) && Lists(actions, Outputs(c, s))
    ensures var b := BatchOf(Collect(actions));
            && (id in b.payloads ==>
                  exists k :: k in Outputs(c, s) && Outputs(c, s)[k].action.Write? && id == DataIdOf(c, k))
            && ((exists k :: k in Outputs(c, s) && id in Outputs(c, s)[k].action.stale) ==>
                  id in b.deletes && id !in b.payloads)
  {
    CollectGathers(actions, id);
    if id in Collect(actions).payloads {
      var a :| a in actions && Writes(a, id);
      RoundActsOnOwnId(c, s.processing, s.declared, s.tracking, a.key);
      assert Outputs(c, s)[a.key].action.Write? && id == DataIdOf(c, a.key);
    }
    if k :| k in Outputs(c, s) && id in Outputs(c, s)[k].action.stale {
      StaleIdsAreForeign(c, s, k, id);
      assert Removes(Outputs(c, s)[k].action, id);
      forall a | a in actions ensures !Writes(a, id) {
        RoundActsOnOwnId(c, s.processing, s.declared, s.tracking, a.key);
        assert DataIdOf(c, a.key) != id;
      }
    }
  }

  lemma UntouchedId(c: Coordinates, s: State, actions: seq<Action>, k: Key)
    requires Inv(c, s) && Lists(actions, Outputs(c, s)) && k !in Outputs(c, s)
    ensures var b := BatchOf(Collect(actions)); var id := DataIdOf(c, k);
            id !in b.deletes && id !in b.purges && id !in b.payloads
  {
    RoundActsOncePerId(c, s.processing, s.declared, s.tracking, actions);
    forall a | a in actions ensures a.id != DataIdOf(c, k) && DataIdOf(c, k) !in a.stale {
      RoundActsOnOwnId(c, s.processing, s.declared, s.tracking, a.key);
      if a.id == DataIdOf(c, k) {
        IdsSeparateKeys(c, a.key, k);
      }
      if DataIdOf(c, k) in a.stale {
        StaleIdsAreForeign(c, s, a.key, DataIdOf(c, k));
      }
    }
    CollectGathers(actions, DataIdOf(c, k));
  }

  /** A row at a key's own id is covered by that key only. */
  lemma OwnIdIsCoveredByOwnKey(c: Coordinates, s: State, k: Key)
    requires Inv(c, s) && DataIdOf(c, k) in s.store
    ensures k in s.tracking
  {
    var id := DataIdOf(c, k);
    assert Covered(c, s.tracking, id);
    var k' :| k' in s.tracking && Covers(c, k', s.tracking[k'], id);
    assert forall r :: r in Records(s.tracking[k']) && r.id == id ==> !Foreign(c, r.id);
    IdsSeparateKeys(c, k, k');
  }

  lemma KeyBeforeSync(c: Coordinates, s: State, k: Key)
    requires Inv(c, s)
    ensures var slot := SlotOf(s.store, DataIdOf(c, k));
            if k in s.tracking then KeyInv(c, k, s.tracking[k], slot)
            else EntryOf(s.tracking, k) == TrackEntry({}, true) && slot.None?
  {
    if DataIdOf(c, k) in s.store {
      OwnIdIsCoveredByOwnKey(c, s, k);
    }
  }

  /** Reconciliation is silent about a tracked key only when its row is exactly as declared. */
  lemma SilentKeyIsConverged(c: Coordinates, s: State, k: Key)
    requires Inv(c, s) && k in s.declared.Keys + s.tracking.Keys && k !in Outputs(c, s)
    ensures k in s.declared && k in s.tracking
    ensures var d := RecordFor(s.declared[k], DataIdOf(c, k), s.processing);
            var slot := SlotOf(s.store, DataIdOf(c, k));
            Records(s.tracking[k]) == {d} && Serves(slot, d) && slot.value.payload.labelText == d.labelText
  {
    KeyBeforeSync(c, s, k);
    assert OutputFor(c, s.processing, k, Wanted(s.declared, k), EntryOf(s.tracking, k)).None?;
    var e := s.tracking[k];
    var d := RecordFor(s.declared[k], DataIdOf(c, k), s.processing);
    assert forall r :: r in Records(e) ==> r == d;
    var r :| r in Records(e);
    assert Records(e) == {d};
    assert Settled(c, k, e, d);
  }

  /** An apply leaves every row outside its batch alone, although cognify sweeps the whole dataset. */
  lemma ApplySparesSilentKeys(c: Coordinates, s: State, actions: seq<Action>, k: Key, now: Slot)
    requires Inv(c, s) && Lists(actions, Outputs(c, s))
    requires k in s.declared.Keys + s.tracking.Keys && k !in Outputs(c, s)
    requires Stopped(SlotOf(s.store, DataIdOf(c, k)), BatchOf(Collect(actions)), DataIdOf(c, k), s.processing, now)
    ensures now == SlotOf(s.store, DataIdOf(c, k))
  {
    UntouchedId(c, s, actions, k);
    SilentKeyIsConverged(c, s, k);
  }

  lemma CrashKeepsInv(c: Coordinates, s: State, actions: seq<Action>, left: Table, s': State)
    requires Inv(c, s) && Next(c, s, SyncCrash(actions, left), s')
    ensures Inv(c, s')
  {
    var b := BatchOf(Collect(actions));
    forall k | k in s'.tracking ensures KeyInv(c, k, s'.tracking[k], SlotOf(left, DataIdOf(c, k))) {
      var id := DataIdOf(c, k);
      assert Stopped(SlotOf(s.store, id), b, id, s.processing, SlotOf(left, id));
      KeyBeforeSync(c, s, k);
      if k in Outputs(c, s) {
        RoundPlans(c, s, actions, k);
        CrashKeepsKey(c, s.processing, k, Wanted(s.declared, k), EntryOf(s.tracking, k), SlotOf(s.store, id), b,
                      SlotOf(left, id));
      } else {
        ApplySparesSilentKeys(c, s, actions, k, SlotOf(left, id));
      }
    }
    forall id | id in left ensures Covered(c, s'.tracking, id) {
      CrashStaysCovered(c, s, actions, left, id);
    }
  }

  lemma CrashStaysCovered(c: Coordinates, s: State, actions: seq<Action>, left: Table, id: DataId)
    requires Inv(c, s) && Lists(actions, Outputs(c, s)) && id in left
    requires CrashOutcome(s.store, BatchOf(Collect(actions)), s.processing, left)
    ensures Covered(c, Precommitted(s.tracking, Outputs(c, s)), id)
  {
    var b := BatchOf(Collect(actions));
    var t' := Precommitted(s.tracking, Outputs(c, s));
    assert Stopped(SlotOf(s.store, id), b, id, s.processing, SlotOf(left, id));
    BatchTouches(c, s, actions, id);
    if id in s.store {
      assert Covered(c, s.tracking, id);
      var k :| k in s.tracking && Covers(c, k, s.tracking[k], id);
      if k in Outputs(c, s) {
        RecordsOfNoted(s.tracking[k], Outputs(c, s)[k].intended);
      }
      assert k in t' && Covers(c, k, t'[k], id);
    } else {
      assert id in b.payloads;
      var k :| k in Outputs(c, s) && id == DataIdOf(c, k);
      assert k in t' && Covers(c, k, t'[k], id);
    }
  }

  lemma CommitKeepsInv(c: Coordinates, s: State, actions: seq<Action>, s': State)
    requires Inv(c, s) && Next(c, s, SyncOk(actions), s')
    ensures Inv(c, s')
  {
    var b := BatchOf(Collect(actions));
    forall k | k in s'.tracking ensures KeyInv(c, k, s'.tracking[k], SlotOf(s'.store, DataIdOf(c, k))) {
      var id := DataIdOf(c, k);
      BatchActsPerId(s.store, b, s.processing, id);
      KeyBeforeSync(c, s, k);
      if k in Outputs(c, s) {
        RoundPlans(c, s, actions, k);
        CommitSettlesKey(c, s.processing, k, Wanted(s.declared, k), EntryOf(s.tracking, k), SlotOf(s.store, id), b);
      } else {
        ApplySparesSilentKeys(c, s, actions, k, SlotOf(s'.store, id));
      }
    }
    forall id | id in s'.store ensures Covered(c, s'.tracking, id) {
      CommitStaysCovered(c, s, actions, id);
    }
  }

  /** Every row that an acted key covers is deleted or rewritten. */
  lemma ActedRowsAreTouched(c: Coordinates, s: State, actions: seq<Action>, k: Key, id: DataId)
    requires Inv(c, s) && Lists(actions, Outputs(c, s)) && k in Outputs(c, s)
    requires k in s.tracking && Covers(c, k, s.tracking[k], id)
    ensures var b := BatchOf(Collect(actions)); id in b.deletes || id in b.payloads
  {
    RoundPlans(c, s, actions, k);
    RoundActsOnOwnId(c, s.processing, s.declared, s.tracking, k);
    if id != DataIdOf(c, k) {
      assert id in Outputs(c, s)[k].action.stale;
      BatchTouches(c, s, actions, id);
    }
  }

  lemma WrittenKeyIsTracked(c: Coordinates, s: State, k: Key)
    requires k in Outputs(c, s) && Outputs(c, s)[k].action.Write?
    ensures Covered(c, Committed(Precommitted(s.tracking, Outputs(c, s)), Outputs(c, s)), DataIdOf(c, k))
  {
    var t' := Committed(Precommitted(s.tracking, Outputs(c, s)), Outputs(c, s));
    assert k in t' && Covers(c, k, t'[k], DataIdOf(c, k));
  }

  lemma StillCovers(c: Coordinates, s: State, k: Key, id: DataId)
    requires k in s.tracking && k !in Outputs(c, s) && Covers(c, k, s.tracking[k], id)
    ensures Covered(c, Committed(Precommitted(s.tracking, Outputs(c, s)), Outputs(c, s)), id)
  {
    var t' := Committed(Precommitted(s.tracking, Outputs(c, s)), Outputs(c, s));
    assert k in t' && t'[k] == s.tracking[k];
  }

  /** Whatever a completed sync leaves is covered: stale ids and removed keys are gone. */
  lemma CommitStaysCovered(c: Coordinates, s: State, actions: seq<Action>, id: DataId)
    requires Inv(c, s) && Lists(actions, Outputs(c, s))
    requires id in ApplyBatch(s.store, BatchOf(Collect(actions)), s.processing)
    ensures Covered(c, Committed(Precommitted(s.tracking, Outputs(c, s)), Outputs(c, s)), id)
  {
    var b := BatchOf(Collect(actions));
    BatchActsPerId(s.store, b, s.processing, id);
    if id in b.payloads {
      BatchTouches(c, s, actions, id);
      var k :| k in Outputs(c, s) && Outputs(c, s)[k].action.Write? && id == DataIdOf(c, k);
      WrittenKeyIsTracked(c, s, k);
    } else {
      assert Covered(c, s.tracking, id);
      var k :| k in s.tracking && Covers(c, k, s.tracking[k], id);
      if k in Outputs(c, s) {
        ActedRowsAreTouched(c, s, actions, k, id);
      } else {
        StillCovers(c, s, k, id);
      }
    }
  }
}
