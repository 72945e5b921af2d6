/**
 Datasets under their locks: the provider and the runtimes, driven one atomic piece at a time. Every
 method is one event of the interleaved runs, so what is proved of those runs holds of the classes.
 */
module LockedDatasets {
  import opened Wrappers
  import opened Identity
  import opened Store
  import opened Locks
  import Interleaving = Serializability

  /** A runtime of many datasets, one for each lock scope. */
  class LockedRuntime {
    const provider: InProcessLockProvider
    /** Works on the dataset it is given. */
    const worker: FakeCogneeRuntime
    var datasets: Interleaving.Datasets
    ghost var log: seq<Interleaving.Section>
    ghost const start: Interleaving.Datasets

    ghost function View(): Interleaving.World
      reads this, provider
    {
      Interleaving.World(provider.inside, datasets, log)
    }

    ghost predicate Ready()
      reads this, provider, provider.locks.Values, worker
    {
      provider.Valid() && worker.fault == Never
    }

    /** In order, and in a state that an interleaved run reaches. */
    ghost predicate Valid()
      reads this, provider, provider.locks.Values, worker
    {
      Ready() && Interleaving.Reachable(start, View())
    }

    constructor (provider: InProcessLockProvider)
      requires provider.Valid() && provider.inside == map[]
      ensures Valid() && View() == Interleaving.World(map[], map[], []) && this.provider == provider && fresh(worker)
    {
      this.provider := provider;
      worker := new FakeCogneeRuntime();
      datasets := map[];
      log := [];
      start := map[];
      Interleaving.StartIsReachable(map[]);
    }

    method Enter(ghost t: Task, scope: Scope) returns (entry: Option<LockEntry>)
      requires Valid() && t !in provider.inside
      modifies provider, provider.locks.Values
      ensures Valid()
      ensures entry.Some? <==> ValidScope(scope)
      ensures entry.Some? ==> Interleaving.Next(old(View()), Interleaving.Enter(t, scope), View())
      ensures entry.Some? ==> provider.refs == old(provider.refs)[t := entry.value]
      ensures entry.Some? ==> provider.locks == old(provider.locks)[scope := entry.value]
      ensures entry.Some? ==>
                if scope in old(provider.locks) then entry.value == old(provider.locks)[scope] else fresh(entry.value)
      ensures entry.None? ==> View() == old(View()) && provider.locks == old(provider.locks)
      ensures forall s :: s in provider.locks ==>
                fresh(provider.locks[s]) || (s in old(provider.locks) && provider.locks[s] == old(provider.locks)[s])
    {
      ghost var before := View();
      entry := provider.Enter(t, scope);
      if entry.Some? {
        Interleaving.ReachesFurther(start, before, Interleaving.Enter(t, scope), View());
      }
    }

    method TryAcquire(ghost t: Task, scope: Scope, entry: LockEntry) returns (got: bool)
      requires Valid() && Waits(provider.inside, t, scope) && provider.refs[t] == entry
      modifies this`log, provider`inside, entry
      ensures Valid()
      ensures got <==> Free(old(provider.inside), scope)
      ensures got ==> Interleaving.Next(old(View()), Interleaving.Acquire(t), View())
      ensures !got ==> View() == old(View())
    {
      ghost var before := View();
      got := provider.TryAcquire(t, scope, entry);
      if got {
        OpenSection(t, scope, before);
      }
    }

    ghost method OpenSection(t: Task, scope: Scope, before: Interleaving.World)
      requires Ready() && Interleaving.Reachable(start, before) && Waits(before.inside, t, scope)
               && Free(before.inside, scope)
      requires View() == before.(inside := before.inside[t := Holding(scope)])
      modifies this`log
      ensures Valid() && Interleaving.Next(before, Interleaving.Acquire(t), View())
    {
      log := log + [Interleaving.Section(t, scope, [])];
      Interleaving.ReachesFurther(start, before, Interleaving.Acquire(t), View());
    }

    method Abandon(ghost t: Task, scope: Scope, entry: LockEntry)
      requires Valid() && Waits(provider.inside, t, scope) && provider.refs[t] == entry
      modifies provider, entry
      ensures Valid() && Interleaving.Next(old(View()), Interleaving.Abandon(t), View())
      ensures provider.refs == old(provider.refs) - {t}
      ensures provider.locks == old(provider.locks) || provider.locks == old(provider.locks) - {scope}
    {
      ghost var before := View();
      provider.Abandon(t, scope, entry);
      Interleaving.ReachesFurther(start, before, Interleaving.Abandon(t), View());
    }

    method Exit(ghost t: Task, scope: Scope, entry: LockEntry)
      requires Valid() && Holds(provider.inside, t, scope) && provider.refs[t] == entry
      modifies provider, entry
      ensures Valid() && Interleaving.Next(old(View()), Interleaving.Exit(t), View())
      ensures provider.refs == old(provider.refs) - {t}
      ensures provider.locks == old(provider.locks) || provider.locks == old(provider.locks) - {scope}
    {
      ghost var before := View();
      provider.Exit(t, scope, entry);
      Interleaving.ReachesFurther(start, before, Interleaving.Exit(t), View());
    }

    /** Only the holder of a scope touches its dataset. */
    method Work(ghost t: Task, scope: Scope, step: Interleaving.Step)
      requires Valid() && Holds(provider.inside, t, scope)
      modifies this`datasets, this`log, worker
      ensures Valid() && Interleaving.Next(old(View()), Interleaving.Work(t, step), View())
    {
      ghost var before := View();
      worker.documents := Interleaving.TableOf(datasets, scope);
      RunStep(worker, step);
      datasets := datasets[scope := worker.documents];
      RecordStep(t, scope, step, before);
    }

    /**
     A queued teardown goes ahead as one whole critical section once nobody holds the lock; until then
     the task keeps waiting and nothing changes.
     */
    method TearDownWhenGranted(ghost t: Task, scope: Scope, entry: LockEntry) returns (done: bool)
      requires Valid() && Waits(provider.inside, t, scope) && provider.refs[t] == entry
      modifies this`datasets, this`log, worker, provider, entry
      ensures Valid()
      ensures done <==> Free(old(provider.inside), scope)
      ensures done ==>
                && provider.inside == old(provider.inside) - {t}
                && log == old(log) + [Interleaving.Section(t, scope, [Interleaving.Teardown])]
                && datasets == old(datasets)[scope := map[]]
      ensures !done ==> View() == old(View()) && provider.refs == old(provider.refs)
      ensures forall s :: s in provider.locks ==>
                s in old(provider.locks) && provider.locks[s] == old(provider.locks)[s]
    {
      done := TryAcquire(t, scope, entry);
      if done {
        RecordedInNewSection(old(log), t, scope, Interleaving.Teardown);
        TeardownEmpties(Interleaving.TableOf(datasets, scope));
        HeldWasWaiting(old(provider.inside), t, scope);
        WorkAndExit(t, scope, entry, Interleaving.Teardown);
      }
    }

    method WorkAndExit(ghost t: Task, scope: Scope, entry: LockEntry, step: Interleaving.Step)
      requires Valid() && Holds(provider.inside, t, scope) && provider.refs[t] == entry
      modifies this`datasets, this`log, worker, provider, entry
      ensures Valid() && provider.inside == old(provider.inside) - {t}
      ensures datasets == old(datasets)[scope := Interleaving.Do(step, Interleaving.TableOf(old(datasets), scope))]
      ensures log == Interleaving.Recorded(old(log), t, step)
      ensures forall s :: s in provider.locks ==>
                s in old(provider.locks) && provider.locks[s] == old(provider.locks)[s]
    {
      Work(t, scope, step);
      Exit(t, scope, entry);
    }

    ghost method RecordStep(t: Task, scope: Scope, step: Interleaving.Step, before: Interleaving.World)
      requires Ready() && Interleaving.Reachable(start, before) && Holds(before.inside, t, scope)
      requires View() ==
               before.(datasets := before.datasets[scope := Interleaving.Do(step,
                   Interleaving.TableOf(before.datasets, scope))])
      modifies this`log
      ensures Valid() && Interleaving.Next(before, Interleaving.Work(t, step), View())
    {
      log := Interleaving.Recorded(log, t, step);
      Interleaving.ReachesFurther(start, before, Interleaving.Work(t, step), View());
    }
  }

  lemma HeldWasWaiting(inside: map<Task, Place>, t: Task, scope: Scope)
    ensures inside[t := Holding(scope)] - {t} == inside - {t}
  {
  }

  /** A step recorded right after the section was opened belongs to it. */
  lemma RecordedInNewSection(log: seq<Interleaving.Section>, t: Task, scope: Scope, step: Interleaving.Step)
    ensures Interleaving.Recorded(log + [Interleaving.Section(t, scope, [])], t, step) == log +
            [Interleaving.Section(t, scope, [step])]
  {
    Interleaving.RecordedOneMore(log, Interleaving.Section(t, scope, []), t, step);
    assert [] + [step] == [step];
  }

  lemma TeardownEmpties(table: Table)
    ensures Interleaving.Do(Interleaving.Teardown, table) == map[]
  {
  }

  lemma SingleIds(table: Table, id: DataId)
    ensures Elements([id]) == {id} && DeleteAll(table, {}) == table && Elements([id][..0]) == {}
  {
  }

  /** Each step is a call of the runtime for one document; a torn step is a call that dies. */
  method RunStep(r: FakeCogneeRuntime, step: Interleaving.Step)
    requires r.fault == Never
    modifies r
    ensures r.documents == Interleaving.Do(step, old(r.documents)) && r.fault == Never
  {
    var done;
    match step
    case DeleteRow(id) =>
      SingleIds(r.documents, id);
      done := r.DeleteDocuments([id]);
    case TearRow(id) =>
      SingleIds(r.documents, id);
      r.fault := After(0, true);
      done := r.DeleteDocuments([id]);
      r.fault := Never;
    case PurgeRow(id) =>
      SingleIds(r.documents, id);
      done := r.PurgeDocumentMemory([id]);
    case AddRow(p) =>
      assert [p][..0] == [];
      done := r.AddDocuments([p]);
    case CognifyRow(id, processing) =>
      if id in r.documents {
        Interleaving.NoSweep(r.documents, processing);
        r.SweepOne(r.documents, {}, id, processing);
        assert {} + {id} == {id};
      }
    case Teardown =>
      r.TeardownDataset();
  }
}
