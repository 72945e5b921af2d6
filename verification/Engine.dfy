/**
 The tracking cycle around one dataset's handler: reconcile every declared or tracked key,
 precommit the intended states next to the possible ones, apply, and only then commit.
 */
module Engine {
  import opened Wrappers
  import opened Identity
  import opened Documents
  import opened Store
  import opened Handler

  /** The possible states of one key. Appending a state only when it is new keeps a set. */
  datatype TrackEntry = TrackEntry(states: set<TrackedState>, mayBeMissing: bool)

  type Tracking = map<Key, TrackEntry>

  function Records(e: TrackEntry): set<Record> {
    set s | s in e.states && s.Live? :: s.record
  }

  function Uncertain(e: TrackEntry): bool {
    e.mayBeMissing || Absent in e.states
  }

  /** With no confirmed baseline, a first creation may or may not have reached the sink. */
  function EntryOf(t: Tracking, k: Key): TrackEntry {
    if k in t then t[k] else TrackEntry({}, true)
  }

  function Wanted(declared: map<Key, Spec>, k: Key): Option<Spec> {
    if k in declared then Some(declared[k]) else None
  }

  function OutputFor(c: Coordinates, processing: Fingerprint, k: Key, desired: Option<Spec>,
                     e: TrackEntry): Option<Output> {
    Reconcile(c, processing, k, desired, Records(e), Uncertain(e))
  }

  function OutputOf(c: Coordinates, processing: Fingerprint, declared: map<Key, Spec>, t: Tracking, k: Key):
    Option<Output>
  {
    OutputFor(c, processing, k, Wanted(declared, k), EntryOf(t, k))
  }

  function Round(c: Coordinates, processing: Fingerprint, declared: map<Key, Spec>, t: Tracking): map<Key, Output> {
    map k | k in declared.Keys + t.Keys && OutputOf(c, processing, declared, t, k).Some? ::
      OutputOf(c, processing, declared, t, k).value
  }

  function Noted(e: TrackEntry, intended: TrackedState): TrackEntry {
    e.(states := e.states + {intended})
  }

  function Precommitted(t: Tracking, outs: map<Key, Output>): Tracking {
    map k | k in t.Keys + outs.Keys :: if k in outs then Noted(EntryOf(t, k), outs[k].intended) else t[k]
  }

  function Committed(t: Tracking, outs: map<Key, Output>): Tracking {
    map k | k in t.Keys + outs.Keys && (k in outs ==> outs[k].intended.Live?) ::
      if k in outs then TrackEntry({outs[k].intended}, false) else t[k]
  }

  function Invalidated(t: Tracking): Tracking {
    map k | k in t :: t[k].(mayBeMissing := true)
  }

  /** The actions of a round, in any order. */
  ghost predicate Lists(actions: seq<Action>, outs: map<Key, Output>) {
    && (forall k :: k in outs ==> outs[k].action in actions)
    && (forall a :: a in actions ==> a.key in outs && outs[a.key].action == a)
  }

  /**
   What is due, told by declarations and tracking alone: a declared key unless its only possible record is
   what the document's would be, and any other tracked key that has a record or an uncertain state.
   */
  ghost predicate Due(c: Coordinates, processing: Fingerprint, declared: map<Key, Spec>, t: Tracking, k: Key) {
    if k in declared then
      || k !in t || t[k].mayBeMissing || Absent in t[k].states
      || exists r :: Live(r) in t[k].states && !Matches(r, declared[k], DataIdOf(c, k), processing)
    else
      k in t && (t[k].mayBeMissing || t[k].states != {})
  }

  /** The action for a due key does what its records call for. */
  ghost predicate Fits(c: Coordinates, processing: Fingerprint, declared: map<Key, Spec>, t: Tracking, k: Key,
                       out: Output)
  {
    && out.action.key == k
    && (out.action.Write? <==> k in declared)
    && (k in declared ==>
          var e := EntryOf(t, k);
          OpFits(out.action.op, declared[k], DataIdOf(c, k), processing, Records(e), Uncertain(e)))
  }

  /** Outputs for what is due, and for nothing else. */
  ghost predicate AsDue(c: Coordinates, processing: Fingerprint, declared: map<Key, Spec>, t: Tracking,
                        outs: map<Key, Output>)
  {
    && (forall k :: k in outs <==> Due(c, processing, declared, t, k))
    && (forall k :: k in outs ==> Fits(c, processing, declared, t, k, outs[k]))
  }

  lemma RecordsAreLiveStates(e: TrackEntry)
    ensures forall r :: r in Records(e) <==> Live(r) in e.states
    ensures Records(e) == {} && !(Absent in e.states) ==> e.states == {}
  {
    if s :| s in e.states {
      assert s == Absent || s.record in Records(e);
    }
  }

  lemma RoundIsDue(c: Coordinates, processing: Fingerprint, declared: map<Key, Spec>, t: Tracking, k: Key)
    ensures k in Round(c, processing, declared, t) <==> Due(c, processing, declared, t, k)
    ensures k in Round(c, processing, declared, t) ==>
              Fits(c, processing, declared, t, k, Round(c, processing, declared, t)[k])
  {
    var e := EntryOf(t, k);
    RecordsAreLiveStates(e);
    OutputCarries(c, processing, k, Wanted(declared, k), Records(e), Uncertain(e));
    if k in declared {
      WriteExactly(c, processing, k, declared[k], Records(e), Uncertain(e));
    }
  }

  lemma RoundIsExactlyDue(c: Coordinates, processing: Fingerprint, declared: map<Key, Spec>, t: Tracking,
                          outs: map<Key, Output>)
    requires outs == Round(c, processing, declared, t)
    ensures AsDue(c, processing, declared, t, outs)
  {
    forall k
      ensures k in outs <==> Due(c, processing, declared, t, k)
      ensures k in outs ==> Fits(c, processing, declared, t, k, outs[k])
    {
      RoundIsDue(c, processing, declared, t, k);
    }
  }

  /** A round's action for a key names that key and its own id, and writes only that id. */
  lemma RoundActsOnOwnId(c: Coordinates, processing: Fingerprint, declared: map<Key, Spec>, t: Tracking, k: Key)
    requires k in Round(c, processing, declared, t)
    ensures var a := Round(c, processing, declared, t)[k].action; a.key == k && a.id == DataIdOf(c, k) && WritesOwnId(a)
  {
  }

  lemma RoundActsOncePerId(c: Coordinates, processing: Fingerprint, declared: map<Key, Spec>, t: Tracking,
                           actions: seq<Action>)
    requires Lists(actions, Round(c, processing, declared, t))
    ensures OneActionPerId(actions) && forall a :: a in actions ==> WritesOwnId(a)
  {
    forall a, b | a in actions && b in actions && a.id == b.id ensures a == b {
      RoundActsOnOwnId(c, processing, declared, t, a.key);
      RoundActsOnOwnId(c, processing, declared, t, b.key);
      IdsSeparateKeys(c, a.key, b.key);
    }
    forall a | a in actions ensures WritesOwnId(a) {
      RoundActsOnOwnId(c, processing, declared, t, a.key);
    }
  }

  function OutputIn(outs: map<Key, Output>, k: Key): Option<Output> {
    if k in outs then Some(outs[k]) else None
  }

  lemma RoundPerKey(c: Coordinates, processing: Fingerprint, declared: map<Key, Spec>, t: Tracking,
                    outs: map<Key, Output>)
    requires forall k :: k in declared.Keys + t.Keys ==>
               OutputIn(outs, k) == OutputOf(c, processing, declared, t, k)
    requires outs.Keys <= declared.Keys + t.Keys
    ensures outs == Round(c, processing, declared, t)
  {
    var round := Round(c, processing, declared, t);
    forall k ensures (k in outs <==> k in round) && (k in outs ==> outs[k] == round[k]) {
      assert k in declared.Keys + t.Keys ==> OutputIn(outs, k) == OutputOf(c, processing, declared, t, k);
    }
  }

  function EntryAt(t: Tracking, k: Key): Option<TrackEntry> {
    if k in t then Some(t[k]) else None
  }

  function PrecommittedAt(e: Option<TrackEntry>, out: Output): TrackEntry {
    Noted(if e.Some? then e.value else TrackEntry({}, true), out.intended)
  }

  function CommittedAt(out: Output): Option<TrackEntry> {
    if out.intended.Absent? then None else Some(TrackEntry({out.intended}, false))
  }

  lemma SameTracking(a: Tracking, b: Tracking)
    requires forall k :: EntryAt(a, k) == EntryAt(b, k)
    ensures a == b
  {
    forall k ensures (k in a <==> k in b) && (k in a ==> a[k] == b[k]) {
      assert EntryAt(a, k) == EntryAt(b, k);
    }
  }

  lemma PrecommittedPerKey(t: Tracking, outs: map<Key, Output>, now: Tracking)
    requires forall k :: EntryAt(now, k) ==
               if k in outs then Some(PrecommittedAt(EntryAt(t, k), outs[k])) else EntryAt(t, k)
    ensures now == Precommitted(t, outs)
  {
    SameTracking(now, Precommitted(t, outs));
  }

  lemma CommittedPerKey(t: Tracking, outs: map<Key, Output>, now: Tracking)
    requires forall k :: EntryAt(now, k) == if k in outs then CommittedAt(outs[k]) else EntryAt(t, k)
    ensures now == Committed(t, outs)
  {
    SameTracking(now, Committed(t, outs));
  }

  class EmulatedEngine {
    var handler: DocumentHandler
    var tracking: Tracking

    constructor (handler: DocumentHandler)
      ensures this.handler == handler && tracking == map[]
    {
      this.handler := handler;
      tracking := map[];
    }

    method ReconcileRound(declared: map<Key, Spec>) returns (outs: map<Key, Output>)
      ensures outs == Round(handler.coords, handler.processing, declared, tracking)
      ensures AsDue(handler.coords, handler.processing, declared, tracking, outs)
    {
      outs := map[];
      var rest := declared.Keys + tracking.Keys;
      while rest != {}
        invariant rest <= declared.Keys + tracking.Keys
        invariant forall k :: k in declared.Keys + tracking.Keys && k !in rest ==>
                    OutputIn(outs, k) == OutputOf(handler.coords, handler.processing, declared, tracking, k)
        invariant forall k :: k in outs ==> k in declared.Keys + tracking.Keys && k !in rest
        decreases |rest|
      {
        var k :| k in rest;
        var out := OutputOf(handler.coords, handler.processing, declared, tracking, k);
        if out.Some? {
          outs := outs[k := out.value];
        }
        rest := rest - {k};
      }
      RoundPerKey(handler.coords, handler.processing, declared, tracking, outs);
      RoundIsExactlyDue(handler.coords, handler.processing, declared, tracking, outs);
    }

    method Precommit(outs: map<Key, Output>)
      modifies this`tracking
      ensures tracking == Precommitted(old(tracking), outs)
    {
      ghost var before := tracking;
      var rest := outs.Keys;
      while rest != {}
        invariant rest <= outs.Keys
        invariant forall k :: EntryAt(tracking, k) ==
                    if k in outs && k !in rest then Some(PrecommittedAt(EntryAt(before, k), outs[k]))
                    else EntryAt(before, k)
        decreases |rest|
      {
        var k :| k in rest;
        tracking := tracking[k := PrecommittedAt(EntryAt(tracking, k), outs[k])];
        rest := rest - {k};
      }
      PrecommittedPerKey(before, outs, tracking);
    }

    method Commit(outs: map<Key, Output>)
      modifies this`tracking
      ensures tracking == Committed(old(tracking), outs)
    {
      ghost var before := tracking;
      var rest := outs.Keys;
      while rest != {}
        invariant rest <= outs.Keys
        invariant forall k :: EntryAt(tracking, k) ==
                    if k in outs && k !in rest then CommittedAt(outs[k]) else EntryAt(before, k)
        decreases |rest|
      {
        var k :| k in rest;
        if outs[k].intended.Absent? {
          tracking := tracking - {k};
        } else {
          tracking := tracking[k := TrackEntry({outs[k].intended}, false)];
        }
        rest := rest - {k};
      }
      CommittedPerKey(before, outs, tracking);
    }

    /** One cycle. The process may die during apply, or after it when `exits` is set. */
    method Sync(declared: map<Key, Spec>, exits: bool) returns (committed: bool, ghost actions: seq<Action>)
      modifies this`tracking, handler.runtime
      ensures Lists(actions, Round(handler.coords, handler.processing, declared, old(tracking)))
      ensures committed ==>
                var outs := Round(handler.coords, handler.processing, declared, old(tracking));
                && tracking == Committed(Precommitted(old(tracking), outs), outs)
                && handler.runtime.documents ==
                     ApplyBatch(old(handler.runtime.documents), BatchOf(Collect(actions)), handler.processing)
      ensures !committed ==>
                && tracking ==
                     Precommitted(old(tracking), Round(handler.coords, handler.processing, declared, old(tracking)))
                && CrashOutcome(old(handler.runtime.documents), BatchOf(Collect(actions)), handler.processing,
                                handler.runtime.documents)
      ensures old(handler.runtime.fault).Never? && !exits ==> committed
    {
      var outs := ReconcileRound(declared);
      Precommit(outs);
      var list := ActionList(outs);
      actions := list;
      RoundActsOncePerId(handler.coords, handler.processing, declared, old(tracking), list);
      committed := ApplyNoted(outs, list);
      if committed && exits {
        CompletionIsAnOutcome(old(handler.runtime.documents), BatchOf(Collect(list)), handler.processing);
        committed := false;
      } else if committed {
        Commit(outs);
      }
    }

    /** Nothing is asked of the runtime before its intention is among the possible states. */
    method ApplyNoted(ghost outs: map<Key, Output>, actions: seq<Action>) returns (done: bool)
      requires Lists(actions, outs) && forall k :: k in outs ==> k in tracking && outs[k].intended in tracking[k].states
      requires forall a :: a in actions ==> WritesOwnId(a)
      modifies handler.runtime
      ensures done ==>
                handler.runtime.documents ==
                ApplyBatch(old(handler.runtime.documents), BatchOf(Collect(actions)), handler.processing)
      ensures !done ==>
                old(handler.runtime.fault).After? &&
                CrashOutcome(old(handler.runtime.documents), BatchOf(Collect(actions)), handler.processing,
                             handler.runtime.documents)
    {
      done := handler.Apply(actions);
    }

    method ActionList(outs: map<Key, Output>) returns (list: seq<Action>)
      requires forall k :: k in outs ==> outs[k].action.key == k
      ensures Lists(list, outs)
    {
      list := [];
      var rest := outs.Keys;
      while rest != {}
        invariant rest <= outs.Keys
        invariant forall k :: k in outs && k !in rest ==> outs[k].action in list
        invariant forall a :: a in list ==> a.key in outs && outs[a.key].action == a
        decreases |rest|
      {
        var k :| k in rest;
        list := list + [outs[k].action];
        rest := rest - {k};
      }
    }

    method InvalidateLossy()
      modifies this`tracking
      ensures tracking == Invalidated(old(tracking))
    {
      tracking := Invalidated(tracking);
    }
  }
}
