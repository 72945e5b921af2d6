/** Runs in which only a document's label changes never touch its derivatives. */
module Relabelling {
  import opened Wrappers
  import opened Identity
  import opened Documents
  import opened Store
  import opened Handler
  import opened Engine
  import opened Convergence
  import opened Runs

  /** Every possible record of the key differs from the declared document in its label at most. */
  ghost predicate LabelOnly(c: Coordinates, s: State, k: Key) {
    && k in s.declared && k in s.tracking
    && Settled(c, k, s.tracking[k], RecordFor(s.declared[k], DataIdOf(c, k), s.processing))
  }

  /** Same content, annotations and weight; the label may differ. */
  predicate Relabelled(a: Spec, b: Spec) {
    && a.content == b.content
    && AnnotationsOf(a.metadata, a.nodeSet) == AnnotationsOf(b.metadata, b.nodeSet)
    && a.weight == b.weight
  }

  /** The event leaves the key's derivative inputs alone; other keys may do anything. */
  predicate KeepsInputs(e: Event, s: State, k: Key)
    requires k in s.declared
  {
    match e
    case Declare(q, spec) => q == k ==> Relabelled(s.declared[k], spec)
    case Undeclare(q) => q != k
    case ChangeConfig(_, _) => false
    case SyncOk(_) => true
    case SyncCrash(_, _) => true
  }

  /** All of a row but its payload, and of that the weight. */
  predicate SameDerivatives(a: Slot, b: Slot) {
    && a.Some? && b.Some?
    && a.value.complete && b.value.complete
    && a.value.fragments == b.value.fragments
    && a.value.profile == b.value.profile
    && a.value.payload.weight == b.value.payload.weight
  }

  /** A label-only document is written, if at all, by a bare re-add. */
  lemma LabelOnlyWrites(c: Coordinates, s: State, k: Key)
    requires Inv(c, s) && LabelOnly(c, s, k) && k in Outputs(c, s)
    ensures var a := Outputs(c, s)[k].action; a.Write? && a.op.UpdateMetadata?
  {
    OutputAt(c, s, k);
    SettledIsRelabelled(c, s.processing, k, s.declared[k], s.tracking[k]);
  }

  lemma SettledIsRelabelled(c: Coordinates, p: Fingerprint, k: Key, spec: Spec, e: TrackEntry)
    requires Records(e) != {} && Settled(c, k, e, RecordFor(spec, DataIdOf(c, k), p))
    requires OutputFor(c, p, k, Some(spec), e).Some?
    ensures var a := OutputFor(c, p, k, Some(spec), e).value.action; a.Write? && a.op.UpdateMetadata?
  {
  }

  /** Its id takes no part in deletes or purges; a round of bare re-adds does not cognify at all. */
  lemma LabelOnlyBatch(c: Coordinates, s: State, actions: seq<Action>, k: Key)
    requires Inv(c, s) && LabelOnly(c, s, k) && Lists(actions, Outputs(c, s))
    ensures var b := BatchOf(Collect(actions)); DataIdOf(c, k) !in b.deletes && DataIdOf(c, k) !in b.purges
    ensures (forall q :: q in Outputs(c, s) ==> LabelOnly(c, s, q)) ==> !BatchOf(Collect(actions)).cognify
  {
    if k in Outputs(c, s) {
      LabelOnlyWrites(c, s, k);
      RoundPlans(c, s, actions, k);
      RoundActsOnOwnId(c, s.processing, s.declared, s.tracking, k);
    } else {
      UntouchedId(c, s, actions, k);
    }
    if forall q :: q in Outputs(c, s) ==> LabelOnly(c, s, q) {
      CollectGathers(actions, DataIdOf(c, k));
      forall a | a in actions ensures !NeedsCognify(a) {
        LabelOnlyWrites(c, s, a.key);
      }
    }
  }

  lemma StoppedRelabel(c: Coordinates, s: State, actions: seq<Action>, k: Key, now: Slot)
    requires Inv(c, s) && LabelOnly(c, s, k) && Lists(actions, Outputs(c, s))
    requires Stopped(SlotOf(s.store, DataIdOf(c, k)), BatchOf(Collect(actions)), DataIdOf(c, k), s.processing, now)
    ensures SameDerivatives(SlotOf(s.store, DataIdOf(c, k)), now)
  {
    var slot := SlotOf(s.store, DataIdOf(c, k));
    KeyBeforeSync(c, s, k);
    if k in Outputs(c, s) {
      LabelOnlyWrites(c, s, k);
      RoundPlans(c, s, actions, k);
      RelabelKeepsKey(c, s.processing, k, s.declared[k], s.tracking[k], slot, BatchOf(Collect(actions)), now);
    } else {
      SilentKeyIsConverged(c, s, k);
      ApplySparesSilentKeys(c, s, actions, k, now);
    }
  }

  lemma DeclaredRecordStaysSettled(c: Coordinates, k: Key, e: TrackEntry, d: Record)
    requires Settled(c, k, e, d)
    ensures Settled(c, k, Noted(e, Live(d)), d) && Settled(c, k, TrackEntry({Live(d)}, false), d)
  {
    RecordsOfNoted(e, Live(d));
    assert Records(TrackEntry({Live(d)}, false)) == {d} by {
      assert forall r :: r in Records(TrackEntry({Live(d)}, false)) <==> Live(r) in {Live(d)};
    }
  }

  /** A sync, completed or not, adds at most the declared record, which agrees with the rest. */
  lemma SyncKeepsLabelOnly(c: Coordinates, s: State, e: Event, s': State, k: Key)
    requires Inv(c, s) && LabelOnly(c, s, k) && Next(c, s, e, s') && (e.SyncOk? || e.SyncCrash?)
    ensures LabelOnly(c, s', k)
  {
    var d := RecordFor(s.declared[k], DataIdOf(c, k), s.processing);
    if k in Outputs(c, s) {
      OutputAt(c, s, k);
      assert Outputs(c, s)[k].intended == Live(d);
      DeclaredRecordStaysSettled(c, k, s.tracking[k], d);
    }
    SyncTracks(c, s, e, s', k);
  }

  /** What a sync makes of a tracked and declared key's entry. */
  lemma SyncTracks(c: Coordinates, s: State, e: Event, s': State, k: Key)
    requires k in s.tracking && k in s.declared && Next(c, s, e, s') && (e.SyncOk? || e.SyncCrash?)
    ensures k in s'.tracking && s'.declared == s.declared && s'.processing == s.processing
    ensures s'.tracking[k] == if k !in Outputs(c, s) then s.tracking[k]
                              else if e.SyncOk? then TrackEntry({Outputs(c, s)[k].intended}, false)
                              else Noted(s.tracking[k], Outputs(c, s)[k].intended)
  {
    OutputAt(c, s, k);
  }

  lemma LabelOnlyRow(c: Coordinates, s: State, k: Key)
    requires Inv(c, s) && LabelOnly(c, s, k)
    ensures SameDerivatives(SlotOf(s.store, DataIdOf(c, k)), SlotOf(s.store, DataIdOf(c, k)))
  {
    KeyBeforeSync(c, s, k);
    var r :| r in Records(s.tracking[k]);
    assert Settled(c, k, s.tracking[k], r);
  }

  lemma LabelOnlyStep(c: Coordinates, s: State, e: Event, s': State, k: Key)
    requires Inv(c, s) && LabelOnly(c, s, k) && Next(c, s, e, s') && KeepsInputs(e, s, k)
    ensures LabelOnly(c, s', k)
    ensures SameDerivatives(SlotOf(s.store, DataIdOf(c, k)), SlotOf(s'.store, DataIdOf(c, k)))
  {
    var id := DataIdOf(c, k);
    LabelOnlyRow(c, s, k);
    match e
    case Declare(_, _) =>
    case Undeclare(_) =>
    case SyncOk(actions) =>
      SyncKeepsLabelOnly(c, s, e, s', k);
      BatchActsPerId(s.store, BatchOf(Collect(actions)), s.processing, id);
      StoppedRelabel(c, s, actions, k, SlotOf(s'.store, id));
    case SyncCrash(actions, left) =>
      SyncKeepsLabelOnly(c, s, e, s', k);
      assert Stopped(SlotOf(s.store, id), BatchOf(Collect(actions)), id, s.processing, SlotOf(left, id));
      StoppedRelabel(c, s, actions, k, SlotOf(left, id));
  }

  /**
   However often a label changes and however many of the syncs in between die, the document keeps
   its completion, its derivatives, its profile and its weight.
   */
  lemma {:induction false} RelabellingKeepsDerivatives(c: Coordinates, states: seq<State>, events: seq<Event>,
                                                       k: Key, n: nat)
    requires |states| == |events| + 1 && n < |states|
    requires Inv(c, states[0]) && LabelOnly(c, states[0], k)
    requires forall i :: 0 <= i < |events| ==>
               k in states[i].declared && KeepsInputs(events[i], states[i], k)
                   && Next(c, states[i], events[i], states[i + 1])
    ensures Inv(c, states[n]) && LabelOnly(c, states[n], k)
    ensures SameDerivatives(SlotOf(states[0].store, DataIdOf(c, k)), SlotOf(states[n].store, DataIdOf(c, k)))
  {
    if n == 0 {
      LabelOnlyRow(c, states[0], k);
    } else {
      RelabellingKeepsDerivatives(c, states, events, k, n - 1);
      LabelOnlyStep(c, states[n - 1], events[n - 1], states[n], k);
      StepKeepsInv(c, states[n - 1], events[n - 1], states[n]);
    }
  }
}
