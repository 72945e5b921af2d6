/**
 DatasetHandler and its sink: when a change of configuration invalidates the documents, and what
 applying dataset actions does to the datasets.
 */
module Datasets {
  import opened Wrappers
  import opened Identity
  import opened Documents
  import opened Engine
  import opened Locks
  import LockedDatasets
  import Interleaving = Serializability

  datatype ManagedBy = System | User

  /** What is recorded of a dataset's configuration; the layout counts. */
  datatype DatasetRecord = DatasetRecord(processing: Fingerprint, schema: nat)

  datatype ManagedRecord = ManagedRecord(record: DatasetRecord, managedBy: ManagedBy)

  datatype DatasetKey = DatasetKey(runtimeKey: string, tenant: string, name: string)

  datatype DatasetSpec = DatasetSpec(processing: Fingerprint, managedBy: ManagedBy)

  datatype MainAction = Create | Refresh | Reset | Remove

  datatype DatasetAction = DatasetAction(key: DatasetKey, processing: Option<Fingerprint>, main: Option<MainAction>)

  datatype DatasetOutput = DatasetOutput(action: DatasetAction, record: Option<ManagedRecord>, lossy: bool)

  // ---------------------------------------------------------------------
  // Reconcile
  // ---------------------------------------------------------------------

  function RecordOf(spec: DatasetSpec): ManagedRecord {
    ManagedRecord(DatasetRecord(spec.processing, RECORD_SCHEMA_VERSION), spec.managedBy)
  }

  ghost predicate SystemManaged(prev: set<ManagedRecord>) {
    forall r :: r in prev ==> r.managedBy.System?
  }

  /**
   The contract of statediff for a container. Nothing is done to, or on behalf of, what a user
   manages. What becomes of a dataset that returns from user to system management is not known here:
   `handback` stands for any answer.
   */
  function MainDiff(desired: Option<ManagedRecord>, prev: set<ManagedRecord>, missing: bool,
                    handback: Option<MainAction>): Option<MainAction>
  {
    if desired.Some? && desired.value.managedBy.User? then None
    else if desired.None? then
      if prev == {} || exists r :: r in prev && r.managedBy.User? then None else Some(Remove)
    else if exists r :: r in prev && r.managedBy.User? then handback
    else if prev == {} then (if missing then Some(Create) else None)
    else if exists r :: r in prev && r.record != desired.value.record then Some(Reset)
    else if missing then Some(Refresh)
    else None
  }

  /** A container always has an output: its sink must hand out the document handler. */
  function DatasetReconcile(key: DatasetKey, spec: Option<DatasetSpec>, prev: set<ManagedRecord>, missing: bool,
                            handback: Option<MainAction>): (out: DatasetOutput)
    ensures spec.Some? && spec.value.managedBy.System? && SystemManaged(prev) ==>
              (out.lossy <==>
                 exists r :: r in prev && (r.record.processing != spec.value.processing
                     || r.record.schema != RECORD_SCHEMA_VERSION))
    ensures spec.None? || spec.value.managedBy.User? ==> !out.lossy
    ensures out.action.key == key
    ensures spec.None? <==> out.action.processing.None?
    ensures spec.Some? ==> out.action.processing == Some(spec.value.processing)
    ensures TearsDown(out.action) <==> spec.None? && prev != {} && SystemManaged(prev)
    ensures spec.None? ==> out.record == None
    ensures spec.Some? ==>
              && out.record.Some? && out.record.value.managedBy == spec.value.managedBy
              && out.record.value.record.processing == spec.value.processing
              && out.record.value.record.schema == RECORD_SCHEMA_VERSION
    ensures HandsOff(out.action) <==> spec.None? && (prev == {} || !SystemManaged(prev))
    ensures spec.Some? && spec.value.managedBy.User? ==> out.action.main == None
    ensures out.lossy <==> out.action.main == Some(Reset)
    ensures spec.Some? && spec.value.managedBy.System? && !SystemManaged(prev) ==> out.action.main == handback
    ensures spec.Some? && spec.value.managedBy.System? && SystemManaged(prev) ==>
              && (out.action.main == Some(Create) <==> prev == {} && missing)
              && (out.action.main == Some(Refresh) <==> prev != {} && missing && !out.lossy)
              && (out.action.main == None <==> !missing && !out.lossy)
  {
    var desired := if spec.None? then None else Some(RecordOf(spec.value));
    var main := MainDiff(desired, prev, missing, handback);
    var processing := if spec.None? then None else Some(spec.value.processing);
    DatasetOutput(DatasetAction(key, processing, main), desired, main == Some(Reset))
  }

  /** A possible record with another weight recreates; otherwise doubt or a changed input replaces. */
  lemma RebuiltExactly(c: Coordinates, p: Fingerprint, k: Key, spec: Spec, e: TrackEntry)
    ensures var d := RecordFor(spec, DataIdOf(c, k), p);
            var out := OutputFor(c, p, k, Some(spec), e);
            var reweighted := exists r :: r in Records(e) && r.weight != d.weight;
            && (out.Some? && out.value.action.op.Recreate? <==> reweighted)
            && (out.Some? && out.value.action.op.Replace? <==>
                  !reweighted && exists r :: r in Records(e) && (Uncertain(e) || !SameDerivativeInputs(r, d)))
  {
    var d := RecordFor(spec, DataIdOf(c, k), p);
    if r :| r in Records(e) && (Uncertain(e) || !SameDerivativeInputs(r, d) || r.weight != d.weight) {
      assert r != d || Uncertain(e);
    }
  }

  /**
   The configuration reaches a document on two ways: its own recorded fingerprint, and the
   invalidation that the dataset hands down. Either one alone has it rebuilt.
   */
  lemma EitherSignalRebuilds(c: Coordinates, out: DatasetOutput, p: Fingerprint, k: Key, spec: Spec, t: Tracking)
    requires k in t && Records(t[k]) != {}
    requires out.lossy || exists r :: r in Records(t[k]) && r.processing != p
    ensures var output := OutputFor(c, p, k, Some(spec), EntryOf(if out.lossy then Invalidated(t) else t, k));
            output.Some? && (output.value.action.op.Replace? || output.value.action.op.Recreate?)
  {
    var e := EntryOf(if out.lossy then Invalidated(t) else t, k);
    assert e.states == t[k].states;
    assert Records(e) == Records(t[k]);
    var r :| r in Records(e) && (out.lossy || r.processing != p);
    RebuiltExactly(c, p, k, spec, e);
  }

  /**
   A new configuration, or a new layout of dataset records, rebuilds every tracked document of a
   system-managed dataset, whether or not the dataset itself may be missing.
   */
  lemma ChangedDatasetRebuilds(c: Coordinates, key: DatasetKey, desired: DatasetSpec, prev: set<ManagedRecord>,
                               missing: bool, handback: Option<MainAction>, k: Key, spec: Spec, t: Tracking)
    requires desired.managedBy.System? && SystemManaged(prev)
    requires exists r :: r in prev && r.record != RecordOf(desired).record
    requires k in t && Records(t[k]) != {}
    ensures var out := DatasetReconcile(key, Some(desired), prev, missing, handback);
            var output := OutputFor(c, desired.processing, k, Some(spec), EntryOf(Invalidated(t), k));
            out.lossy && output.Some? && (output.value.action.op.Replace? || output.value.action.op.Recreate?)
  {
    var out := DatasetReconcile(key, Some(desired), prev, missing, handback);
    EitherSignalRebuilds(c, out, desired.processing, k, spec, t);
  }

  // ---------------------------------------------------------------------
  // The sink
  // ---------------------------------------------------------------------

  datatype Child = Child(key: DatasetKey, processing: Fingerprint)

  datatype SinkError = NotARuntime(key: DatasetKey) | BadScope(scope: Scope) | LockTimeout(scope: Scope)

  predicate HandsOff(a: DatasetAction) {
    a.processing.None? && a.main.None?
  }

  predicate TearsDown(a: DatasetAction) {
    a.processing.None? && a.main == Some(Remove)
  }

  function PlaceOf(inside: map<Task, Place>, t: Task): Option<Place> {
    if t in inside then Some(inside[t]) else None
  }

  /** Only this task moved. */
  ghost predicate OthersStay(before: map<Task, Place>, after: map<Task, Place>, t: Task) {
    forall u :: u != t ==> PlaceOf(after, u) == PlaceOf(before, u)
  }

  lemma LeavingMovesOne(inside: map<Task, Place>, t: Task)
    ensures OthersStay(inside, inside - {t}, t) && OthersStay(inside, inside, t)
  {
  }

  lemma LockScopeIsValid(c: Coordinates)
    requires ValidCoordinate(c.identityScope) && ValidCoordinate(c.tenant) && ValidCoordinate(c.dataset)
    ensures ValidScope(LockScope(c))
  {
    JoinIsText([LOCK_SCOPE_PREFIX, c.identityScope, c.tenant, c.dataset]);
  }

  class DatasetSink {
    /** The bound runtime keys and the physical scope of each one's acting user. */
    const bindings: map<string, string>
    const store: LockedDatasets.LockedRuntime

    constructor (bindings: map<string, string>, store: LockedDatasets.LockedRuntime)
      ensures this.bindings == bindings && this.store == store
    {
      this.bindings := bindings;
      this.store := store;
    }

    /** Where a dataset is locked; asked of bound runtime keys only. */
    function ScopeOf(key: DatasetKey): Scope {
      var user := if key.runtimeKey in bindings then bindings[key.runtimeKey] else "";
      LockScope(Coordinates(key.runtimeKey, user, key.tenant, key.name))
    }

    function ChildOf(a: DatasetAction): Option<Child> {
      if a.processing.None? then None else Some(Child(a.key, a.processing.value))
    }

    function Children(actions: seq<DatasetAction>): (r: seq<Option<Child>>)
      ensures |r| == |actions|
      ensures forall i :: 0 <= i < |actions| ==> (r[i].Some? <==> actions[i].processing.Some?)
      ensures forall i :: 0 <= i < |actions| && r[i].Some? ==>
                r[i].value.key == actions[i].key && Some(r[i].value.processing) == actions[i].processing
    {
      if actions == [] then [] else Children(actions[..|actions| - 1]) + [ChildOf(actions[|actions| - 1])]
    }

    /** The critical sections of these actions: one whole teardown for each that tears down. */
    ghost function Sections(t: Task, actions: seq<DatasetAction>): seq<Interleaving.Section> {
      if actions == [] then []
      else
        var a := actions[|actions| - 1];
        Sections(t, actions[..|actions| - 1]) +
        if TearsDown(a) then [Interleaving.Section(t, ScopeOf(a.key), [Interleaving.Teardown])] else []
    }

    /** The datasets after these actions. */
    ghost function After(d: Interleaving.Datasets, actions: seq<DatasetAction>): Interleaving.Datasets {
      if actions == [] then d
      else
        var a := actions[|actions| - 1];
        var before := After(d, actions[..|actions| - 1]);
        if TearsDown(a) then before[ScopeOf(a.key) := map[]] else before
    }

    lemma OneMore(t: Task, log: seq<Interleaving.Section>, d: Interleaving.Datasets, done: seq<DatasetAction>,
                  a: DatasetAction)
      ensures log + Sections(t, done + [a]) == log + Sections(t, done) + Sections(t, [a])
      ensures After(d, done + [a]) == After(After(d, done), [a])
      ensures Children(done + [a]) == Children(done) + [ChildOf(a)]
    {
      var all := done + [a];
      assert all[..|all| - 1] == done && all[|all| - 1] == a && [a][..0] == [];
      assert Sections(t, all) == Sections(t, done) + Sections(t, [a]);
    }

    /** Torn-down datasets are empty, and the others are as they were. */
    lemma {:induction false} AfterAt(d: Interleaving.Datasets, actions: seq<DatasetAction>, s: Scope)
      ensures Interleaving.TableOf(After(d, actions), s) ==
              if exists i :: 0 <= i < |actions| && TearsDown(actions[i]) && ScopeOf(actions[i].key) == s then map[]
              else Interleaving.TableOf(d, s)
    {
      if actions != [] {
        var front, last := actions[..|actions| - 1], actions[|actions| - 1];
        AfterAt(d, front, s);
        if i :| 0 <= i < |front| && TearsDown(front[i]) && ScopeOf(front[i].key) == s {
          assert actions[i] == front[i];
        }
        assert forall i :: 0 <= i < |front| ==> actions[i] == front[i];
      }
    }

    /** Why the action fails, if it does, apart from a wait that ends too early. */
    function Refusal(a: DatasetAction): Option<SinkError> {
      if HandsOff(a) then None
      else if a.key.runtimeKey !in bindings then Some(NotARuntime(a.key))
      else if TearsDown(a) && !ValidScope(ScopeOf(a.key)) then Some(BadScope(ScopeOf(a.key)))
      else None
    }

    /** The action is what reconciling this dataset gave, whatever was recorded of it. */
    ghost predicate Reconciled(key: DatasetKey, spec: Option<DatasetSpec>, a: DatasetAction) {
      exists prev, missing, handback :: a == DatasetReconcile(key, spec, prev, missing, handback).action
    }

    /** A declared dataset gets a handler with its own fingerprint on every round, and only a declared one. */
    lemma DeclaredGetHandlers(keys: seq<DatasetKey>, specs: seq<Option<DatasetSpec>>, actions: seq<DatasetAction>)
      requires |keys| == |specs| == |actions|
      requires forall i :: 0 <= i < |actions| ==> Reconciled(keys[i], specs[i], actions[i])
      ensures forall i :: 0 <= i < |actions| ==>
                Children(actions)[i] ==
                if specs[i].None? then None else Some(Child(keys[i], specs[i].value.processing))
    {
      forall i | 0 <= i < |actions|
        ensures Children(actions)[i] ==
                if specs[i].None? then None else Some(Child(keys[i], specs[i].value.processing))
      {
        var prev, missing, handback :|
          actions[i] == DatasetReconcile(keys[i], specs[i], prev, missing, handback).action;
      }
    }

    /**
     With valid coordinates only a missing runtime is a reason to refuse, and only where there is something
     to do: a dataset is declared, or is to be torn down.
     */
    lemma RefusedWithoutRuntime(key: DatasetKey, spec: Option<DatasetSpec>, prev: set<ManagedRecord>, missing: bool,
                                handback: Option<MainAction>)
      requires ValidCoordinate(key.tenant) && ValidCoordinate(key.name)
      requires key.runtimeKey in bindings ==> ValidCoordinate(bindings[key.runtimeKey])
      ensures Refusal(DatasetReconcile(key, spec, prev, missing, handback).action) ==
              if key.runtimeKey !in bindings && (spec.Some? || (prev != {} && SystemManaged(prev)))
              then Some(NotARuntime(key)) else None
    {
      if key.runtimeKey in bindings {
        LockScopeIsValid(Coordinates(key.runtimeKey, bindings[key.runtimeKey], key.tenant, key.name));
      }
    }

    predicate Accepted(actions: seq<DatasetAction>) {
      forall i :: 0 <= i < |actions| ==> Refusal(actions[i]) == None
    }

    lemma AcceptedOneMore(done: seq<DatasetAction>, a: DatasetAction)
      ensures Accepted(done + [a]) <==> Accepted(done) && Refusal(a) == None
    {
      var all := done + [a];
      assert all[|done|] == a && forall i :: 0 <= i < |done| ==> all[i] == done[i];
    }

    /** The task is either outside all locks or queued for the teardown of the action it has come to. */
    ghost predicate Standing(t: Task, actions: seq<DatasetAction>, n: nat, queued: Option<LockEntry>)
      reads store, store.provider
    {
      if queued.None? then t !in store.provider.inside
      else
        && n < |actions| && TearsDown(actions[n]) && Refusal(actions[n]) == None
        && Waits(store.provider.inside, t, ScopeOf(actions[n].key))
        && t in store.provider.refs && store.provider.refs[t] == queued.value
    }

    /** Everything but a teardown is over at once; a teardown queues for its lock first. */
    method Begin(ghost t: Task, a: DatasetAction) returns (queued: Option<LockEntry>, failure: Option<SinkError>)
      requires store.Valid() && t !in store.provider.inside
      modifies store.provider, store.provider.locks.Values
      ensures store.Valid() && failure == Refusal(a)
      ensures OthersStay(old(store.provider.inside), store.provider.inside, t)
      ensures queued.Some? <==> failure.None? && TearsDown(a)
      ensures queued.Some? ==> store.provider.inside == old(store.provider.inside)[t := Waiting(ScopeOf(a.key))]
      ensures queued.Some? ==> store.provider.refs == old(store.provider.refs)[t := queued.value]
      ensures queued.None? ==> store.provider.inside == old(store.provider.inside)
      ensures forall s :: s in store.provider.locks ==>
                || fresh(store.provider.locks[s])
                || (s in old(store.provider.locks) && store.provider.locks[s] == old(store.provider.locks)[s])
    {
      queued, failure := None, Refusal(a);
      if failure.None? && TearsDown(a) {
        queued := store.Enter(t, ScopeOf(a.key));
      }
    }

    /** The next piece of work on one action: it begins, or its queued teardown goes ahead if it can. */
    method Advance(ghost t: Task, actions: seq<DatasetAction>, n: nat, queued: Option<LockEntry>)
      returns (done: bool, wait: Option<LockEntry>, failure: Option<SinkError>)
      requires store.Valid() && n < |actions| && Standing(t, actions, n, queued)
      modifies store`datasets, store`log, store.worker, store.provider, store.provider.locks.Values
      ensures store.Valid() && Standing(t, actions, if done then n + 1 else n, wait)
      ensures OthersStay(old(store.provider.inside), store.provider.inside, t)
      ensures done ==> wait.None? && failure.None? && Refusal(actions[n]) == None
      ensures failure.Some? ==> wait.None? && Refusal(actions[n]) == failure
      ensures !done && failure.None? ==> wait.Some?
      ensures !done && failure.None? && queued.Some? ==> !Free(store.provider.inside, ScopeOf(actions[n].key))
      ensures store.log == if done then old(store.log) + Sections(t, [actions[n]]) else old(store.log)
      ensures store.datasets == if done then After(old(store.datasets), [actions[n]]) else old(store.datasets)
      ensures forall s :: s in store.provider.locks ==>
                || fresh(store.provider.locks[s])
                || (s in old(store.provider.locks) && store.provider.locks[s] == old(store.provider.locks)[s])
    {
      var a := actions[n];
      SingleAction(t, store.datasets, a);
      if queued.None? {
        wait, failure := Begin(t, a);
        done := wait.None? && failure.None?;
      } else {
        LeavingMovesOne(store.provider.inside, t);
        done := store.TearDownWhenGranted(t, ScopeOf(a.key), queued.value);
        wait, failure := if done then None else queued, None;
      }
    }

    lemma SingleAction(t: Task, d: Interleaving.Datasets, a: DatasetAction)
      ensures Sections(t, [a]) ==
              if TearsDown(a) then [Interleaving.Section(t, ScopeOf(a.key), [Interleaving.Teardown])] else []
      ensures After(d, [a]) == if TearsDown(a) then d[ScopeOf(a.key) := map[]] else d
    {
      assert [a][..0] == [];
    }

    /** One action, from wherever the task stands, until it is done, refused or has to wait. */
    method ApplyOne(ghost t: Task, actions: seq<DatasetAction>, n: nat, queued: Option<LockEntry>)
      returns (done: bool, wait: Option<LockEntry>, failure: Option<SinkError>)
      requires store.Valid() && n < |actions| && Standing(t, actions, n, queued)
      modifies store`datasets, store`log, store.worker, store.provider, store.provider.locks.Values
      ensures store.Valid() && Standing(t, actions, if done then n + 1 else n, wait)
      ensures OthersStay(old(store.provider.inside), store.provider.inside, t)
      ensures done ==> wait.None? && failure.None? && Refusal(actions[n]) == None
      ensures failure.Some? ==> wait.None? && Refusal(actions[n]) == failure
      ensures !done && failure.None? ==> wait.Some? && !Free(store.provider.inside, ScopeOf(actions[n].key))
      ensures store.log == if done then old(store.log) + Sections(t, [actions[n]]) else old(store.log)
      ensures store.datasets == if done then After(old(store.datasets), [actions[n]]) else old(store.datasets)
      ensures forall s :: s in store.provider.locks ==>
                || fresh(store.provider.locks[s])
                || (s in old(store.provider.locks) && store.provider.locks[s] == old(store.provider.locks)[s])
    {
      done, wait, failure := Advance(t, actions, n, queued);
      if wait.Some? && queued.None? {
        done, wait, failure := Advance(t, actions, n, wait);
      }
    }

    lemma PrefixOneMore(t: Task, log: seq<Interleaving.Section>, d: Interleaving.Datasets, actions: seq<DatasetAction>,
                        n: nat)
      requires n < |actions|
      ensures Accepted(actions[..n + 1]) <==> Accepted(actions[..n]) && Refusal(actions[n]) == None
      ensures Children(actions[..n + 1]) == Children(actions[..n]) + [ChildOf(actions[n])]
      ensures log + Sections(t, actions[..n + 1]) == log + Sections(t, actions[..n]) + Sections(t, [actions[n]])
      ensures After(d, actions[..n + 1]) == After(After(d, actions[..n]), [actions[n]])
    {
      assert actions[..n + 1] == actions[..n] + [actions[n]];
      OneMore(t, log, d, actions[..n], actions[n]);
      AcceptedOneMore(actions[..n], actions[n]);
    }

    /**
     Runs from wherever the task stands to the end of the remaining actions, to a failure or into a
     wait; after a wait it goes on with what remains then, whatever other tasks did meanwhile. One output
     for each action it gets through, a document handler exactly for the live ones. The first refused
     action stops the rest; the datasets change by whole teardowns in critical sections and not
     otherwise; only a lock that is held makes it wait.
     */
    method Resume(ghost t: Task, actions: seq<DatasetAction>, queued: Option<LockEntry>)
      returns (n: nat, outputs: seq<Option<Child>>, wait: Option<LockEntry>, failure: Option<SinkError>)
      requires store.Valid() && Standing(t, actions, 0, queued)
      modifies store`datasets, store`log, store.worker, store.provider, store.provider.locks.Values
      ensures store.Valid() && n <= |actions| && Standing(t, actions, n, wait)
      ensures OthersStay(old(store.provider.inside), store.provider.inside, t)
      ensures Accepted(actions[..n]) && outputs == Children(actions[..n])
      ensures store.log == old(store.log) + Sections(t, actions[..n])
      ensures store.datasets == After(old(store.datasets), actions[..n])
      ensures failure.Some? ==> wait.None? && n < |actions| && Refusal(actions[n]) == failure
      ensures failure.None? && wait.None? ==> n == |actions|
      ensures wait.Some? ==> failure.None? && !Free(store.provider.inside, ScopeOf(actions[n].key))
    {
      ghost var inside0, log0, datasets0 := store.provider.inside, store.log, store.datasets;
      n, outputs, wait, failure := 0, [], queued, None;
      while n < |actions|
        invariant store.Valid() && n <= |actions| && Standing(t, actions, n, wait) && failure.None?
        invariant n > 0 ==> wait.None?
        invariant OthersStay(inside0, store.provider.inside, t)
        invariant Accepted(actions[..n]) && outputs == Children(actions[..n])
        invariant store.log == log0 + Sections(t, actions[..n])
        invariant store.datasets == After(datasets0, actions[..n])
        invariant forall s :: s in store.provider.locks ==>
                    || fresh(store.provider.locks[s])
                    || (s in old(store.provider.locks) && store.provider.locks[s] == old(store.provider.locks)[s])
      {
        PrefixOneMore(t, log0, datasets0, actions, n);
        var done;
        done, wait, failure := ApplyOne(t, actions, n, wait);
        if !done {
          assert store.log == log0 + Sections(t, actions[..n]);
          return;
        }
        outputs, n := outputs + [ChildOf(actions[n])], n + 1;
      }
    }

    /** The wait ends before the lock is granted, by timeout or cancellation. */
    method GiveUp(ghost t: Task, actions: seq<DatasetAction>, n: nat, queued: LockEntry) returns (failure: SinkError)
      requires store.Valid() && Standing(t, actions, n, Some(queued))
      modifies store.provider, store.provider.locks.Values
      ensures store.Valid() && store.provider.inside == old(store.provider.inside) - {t}
      ensures failure == LockTimeout(ScopeOf(actions[n].key))
    {
      store.Abandon(t, ScopeOf(actions[n].key), queued);
      failure := LockTimeout(ScopeOf(actions[n].key));
    }
  }
}
