/** The convergence state machine as running code: the rules drive a real engine, handler and runtime. */
module Machine {
  import opened Identity
  import opened Documents
  import opened Store
  import opened Handler
  import opened Engine
  import opened Convergence
  import opened Runs

  class ConvergenceMachine {
    const coords: Coordinates
    const runtime: FakeCogneeRuntime
    const engine: EmulatedEngine
    var declared: map<Key, Spec>
    var everDeclared: set<Key>

    ghost predicate Valid()
      reads this, engine
    {
      engine.handler.coords == coords && engine.handler.runtime == runtime
    }

    ghost function View(): State
      reads this, engine, runtime
    {
      State(declared, engine.handler.processing, engine.tracking, runtime.documents, everDeclared)
    }

    constructor (coords: Coordinates, processing: Fingerprint)
      ensures Valid() && Started(View()) && Inv(coords, View()) && this.coords == coords
      ensures fresh(runtime) && fresh(engine)
    {
      var fake := new FakeCogneeRuntime();
      var handler := new DocumentHandler(coords, processing, fake);
      this.coords := coords;
      this.runtime := fake;
      this.engine := new EmulatedEngine(handler);
      this.declared := map[];
      this.everDeclared := {};
    }

    method DeclareDocument(k: Key, spec: Spec)
      requires Valid()
      modifies this
      ensures Valid() && Next(coords, old(View()), Declare(k, spec), View())
    {
      declared := declared[k := spec];
      everDeclared := everDeclared + {k};
    }

    method UndeclareDocument(k: Key)
      requires Valid()
      modifies this
      ensures Valid() && Next(coords, old(View()), Undeclare(k), View())
    {
      declared := declared - {k};
    }

    method SwitchConfig(processing: Fingerprint, lossy: bool)
      requires Valid()
      modifies engine
      ensures Valid() && Next(coords, old(View()), ChangeConfig(processing, lossy), View())
    {
      engine.handler := new DocumentHandler(coords, processing, runtime);
      if lossy {
        engine.InvalidateLossy();
      }
    }

    /** A sync nothing interrupts reaches the reference state and a fixed point. */
    method CompleteSync()
      requires Valid() && Inv(coords, View())
      modifies engine, runtime
      ensures Valid() && Inv(coords, View()) && Converged(coords, View()) && Silent(coords, View())
    {
      ghost var before := View();
      runtime.fault := Never;
      ghost var actions;
      var committed;
      committed, actions := engine.Sync(declared, false);
      CompletedSyncConverges(coords, before, actions, View());
    }

    /** A sync the fault may interrupt anywhere, or that exits after apply, keeps the invariant. */
    method InterruptedSync(fault: Fault, exits: bool) returns (ghost event: Event)
      requires Valid() && Inv(coords, View())
      modifies engine, runtime
      ensures Valid() && Next(coords, old(View()), event, View()) && (event.SyncOk? || event.SyncCrash?)
      ensures Inv(coords, View())
      ensures event.SyncOk? ==> Converged(coords, View())
    {
      ghost var before := View();
      runtime.fault := fault;
      ghost var actions;
      var committed;
      committed, actions := engine.Sync(declared, exits);
      runtime.fault := Never;
      if committed {
        event := SyncOk(actions);
        CompletedSyncConverges(coords, before, actions, View());
      } else {
        event := SyncCrash(actions, runtime.documents);
        CrashKeepsInv(coords, before, actions, runtime.documents, View());
      }
    }
  }
}
