/**
 Document batches and teardowns of many tasks, interleaved step by step under the dataset locks,
 leave every dataset in the state of a serial execution of their critical sections.
 */
module Serializability {
  import opened Wrappers
  import opened Identity
  import opened Documents
  import opened Store
  import opened Locks

  /** One atomic write to a dataset: what a batch or a teardown does between two suspensions. */
  datatype Step =
    | DeleteRow(id: DataId)
    | TearRow(id: DataId)
    | PurgeRow(id: DataId)
    | AddRow(payload: Payload)
    | CognifyRow(id: DataId, processing: Fingerprint)
    | Teardown

  function Do(step: Step, table: Table): Table {
    match step
    case DeleteRow(id) => DeleteAll(table, {id})
    case TearRow(id) => TearAt(table, id)
    case PurgeRow(id) => PurgeAll(table, {id})
    case AddRow(p) => table[p.id := AddTo(SlotOf(table, p.id), p)]
    case CognifyRow(id, processing) => CognifyAll(table, {id}, processing)
    case Teardown => map[]
  }

  function DoAll(steps: seq<Step>, table: Table): Table {
    if steps == [] then table else Do(steps[|steps| - 1], DoAll(steps[..|steps| - 1], table))
  }

  type Datasets = map<Scope, Table>

  function TableOf(d: Datasets, scope: Scope): Table {
    if scope in d then d[scope] else map[]
  }

  /** One task's stay in one critical section; a failure in the middle leaves it truncated. */
  datatype Section = Section(task: Task, scope: Scope, steps: seq<Step>)

  /** `log` lists the sections by acquisition; it is history and guides nothing. */
  datatype World = World(inside: map<Task, Place>, datasets: Datasets, log: seq<Section>)

  datatype Event =
    | Enter(task: Task, scope: Scope)
    | Acquire(task: Task)
    | Abandon(task: Task)
    | Work(task: Task, step: Step)
    | Exit(task: Task)

  /** The lock steps are those of InProcessLockProvider; only the holder of a scope writes its dataset. */
  ghost predicate Next(w: World, e: Event, w': World) {
    match e
    case Enter(t, scope) =>
      t !in w.inside && ValidScope(scope) && w' == w.(inside := w.inside[t := Waiting(scope)])
    case Acquire(t) =>
      && t in w.inside && w.inside[t].Waiting? && Free(w.inside, w.inside[t].scope)
      && w' == w.(inside := w.inside[t := Holding(w.inside[t].scope)], log := w.log +
          [Section(t, w.inside[t].scope, [])])
    case Abandon(t) =>
      t in w.inside && w.inside[t].Waiting? && w' == w.(inside := w.inside - {t})
    case Exit(t) =>
      t in w.inside && w.inside[t].Holding? && w' == w.(inside := w.inside - {t})
    case Work(t, step) =>
      && t in w.inside && w.inside[t].Holding?
      && var scope := w.inside[t].scope;
         w' == w.(datasets := w.datasets[scope := Do(step, TableOf(w.datasets, scope))],
             log := Recorded(w.log, t, step))
  }

  /** The step goes to the section the task opened last. */
  function Recorded(log: seq<Section>, t: Task, step: Step): seq<Section> {
    if log == [] then []
    else
      var n := |log| - 1;
      if log[n].task == t then log[..n] + [log[n].(steps := log[n].steps + [step])]
      else Recorded(log[..n], t, step) + [log[n]]
  }

  /** One section after the other, each without interruption. */
  function Serial(d: Datasets, log: seq<Section>): Datasets {
    if log == [] then d
    else
      var before := Serial(d, log[..|log| - 1]);
      var s := log[|log| - 1];
      before[s.scope := DoAll(s.steps, TableOf(before, s.scope))]
  }

  /** The section a holder opened is the last one logged for that scope. */
  predicate Open(log: seq<Section>, t: Task, scope: Scope) {
    if log == [] then false
    else
      var s := log[|log| - 1];
      if s.task == t then s.scope == scope else s.scope != scope && Open(log[..|log| - 1], t, scope)
  }

  ghost predicate Inv(start: Datasets, w: World) {
    && (forall t, u, scope :: Holds(w.inside, t, scope) && Holds(w.inside, u, scope) ==> t == u)
    && (forall t, scope :: Holds(w.inside, t, scope) ==> Open(w.log, t, scope))
    && (forall scope :: TableOf(w.datasets, scope) == TableOf(Serial(start, w.log), scope))
  }

  // One section more at the end of the log.

  lemma SerialOneMore(start: Datasets, log: seq<Section>, s: Section, at: Scope)
    ensures TableOf(Serial(start, log + [s]), at) ==
            if at == s.scope then DoAll(s.steps, TableOf(Serial(start, log), at)) else TableOf(Serial(start, log), at)
  {
    var all := log + [s];
    assert all[..|all| - 1] == log && all[|all| - 1] == s;
  }

  lemma RecordedOneMore(log: seq<Section>, s: Section, t: Task, step: Step)
    ensures Recorded(log + [s], t, step) ==
            if s.task == t then log + [s.(steps := s.steps + [step])] else Recorded(log, t, step) + [s]
  {
    var all := log + [s];
    assert all[..|all| - 1] == log && all[|all| - 1] == s;
  }

  lemma OpenOneMore(log: seq<Section>, s: Section, t: Task, scope: Scope)
    ensures Open(log + [s], t, scope) <==>
            if s.task == t then s.scope == scope else s.scope != scope && Open(log, t, scope)
  {
    var all := log + [s];
    assert all[..|all| - 1] == log && all[|all| - 1] == s;
  }

  lemma DoAllOneMore(steps: seq<Step>, step: Step, table: Table)
    ensures DoAll(steps + [step], table) == Do(step, DoAll(steps, table))
  {
    var all := steps + [step];
    assert all[..|all| - 1] == steps && all[|all| - 1] == step;
  }

  /** A step of an open section reorders before every later section: those are on other datasets. */
  lemma {:induction false} WorkJoinsItsSection(start: Datasets, log: seq<Section>, t: Task, scope: Scope, step: Step,
                                               at: Scope)
    requires Open(log, t, scope)
    ensures var old_d, new_d := Serial(start, log), Serial(start, Recorded(log, t, step));
            TableOf(new_d, at) == if at == scope then Do(step, TableOf(old_d, scope)) else TableOf(old_d, at)
  {
    var before, s := log[..|log| - 1], log[|log| - 1];
    assert log == before + [s];
    RecordedOneMore(before, s, t, step);
    SerialOneMore(start, before, s, at);
    if s.task == t {
      SerialOneMore(start, before, s.(steps := s.steps + [step]), at);
      DoAllOneMore(s.steps, step, TableOf(Serial(start, before), at));
    } else {
      SerialOneMore(start, Recorded(before, t, step), s, at);
      WorkJoinsItsSection(start, before, t, scope, step, at);
    }
  }

  lemma {:induction false} WorkKeepsOthersOpen(log: seq<Section>, t: Task, step: Step, u: Task, scope: Scope)
    requires Open(log, u, scope)
    ensures Open(Recorded(log, t, step), u, scope)
  {
    var before, s := log[..|log| - 1], log[|log| - 1];
    assert log == before + [s];
    RecordedOneMore(before, s, t, step);
    OpenOneMore(before, s, u, scope);
    if s.task == t {
      OpenOneMore(before, s.(steps := s.steps + [step]), u, scope);
    } else {
      OpenOneMore(Recorded(before, t, step), s, u, scope);
      if s.task != u {
        WorkKeepsOthersOpen(before, t, step, u, scope);
      }
    }
  }

  lemma AcquireKeepsInv(start: Datasets, w: World, t: Task, w': World)
    requires Inv(start, w) && Next(w, Acquire(t), w')
    ensures Inv(start, w')
  {
    var scope := w.inside[t].scope;
    assert w'.log[..|w.log|] == w.log;
    forall u, s | Holds(w'.inside, u, s) ensures Open(w'.log, u, s) {
      if u != t {
        assert Holds(w.inside, u, s);
      }
    }
    forall u, v, s | Holds(w'.inside, u, s) && Holds(w'.inside, v, s) ensures u == v {
      if u != t {
        assert Holds(w.inside, u, s);
      }
      if v != t {
        assert Holds(w.inside, v, s);
      }
    }
  }

  lemma WorkKeepsInv(start: Datasets, w: World, t: Task, step: Step, w': World)
    requires Inv(start, w) && Next(w, Work(t, step), w')
    ensures Inv(start, w')
  {
    var scope := w.inside[t].scope;
    assert Holds(w.inside, t, scope);
    forall u, s | Holds(w'.inside, u, s) ensures Open(w'.log, u, s) {
      WorkKeepsOthersOpen(w.log, t, step, u, s);
    }
    forall s ensures TableOf(w'.datasets, s) == TableOf(Serial(start, w'.log), s) {
      WorkJoinsItsSection(start, w.log, t, scope, step, s);
    }
  }

  lemma StepKeepsInv(start: Datasets, w: World, e: Event, w': World)
    requires Inv(start, w) && Next(w, e, w')
    ensures Inv(start, w')
  {
    match e
    case Acquire(t) => AcquireKeepsInv(start, w, t, w');
    case Work(t, step) => WorkKeepsInv(start, w, t, step, w');
    case Enter(t, _) =>
      assert forall u, s :: Holds(w'.inside, u, s) ==> Holds(w.inside, u, s);
    case Abandon(t) =>
      assert forall u, s :: Holds(w'.inside, u, s) ==> Holds(w.inside, u, s);
    case Exit(t) =>
      assert forall u, s :: Holds(w'.inside, u, s) ==> Holds(w.inside, u, s);
  }

  ghost predicate IsRun(worlds: seq<World>, events: seq<Event>) {
    && |worlds| == |events| + 1
    && worlds[0].inside == map[] && worlds[0].log == []
    && forall i :: 0 <= i < |events| ==> Next(worlds[i], events[i], worlds[i + 1])
  }

  /**
   Whatever the interleaving, at every moment each dataset is what the sections acquired so far,
   executed one after the other in the order of acquisition, make of it.
   */
  lemma {:induction false} EveryRunIsSerializable(worlds: seq<World>, events: seq<Event>, i: nat)
    requires IsRun(worlds, events) && i < |worlds|
    ensures Inv(worlds[0].datasets, worlds[i])
    ensures forall scope ::
              TableOf(worlds[i].datasets, scope) == TableOf(Serial(worlds[0].datasets, worlds[i].log), scope)
  {
    if i > 0 {
      EveryRunIsSerializable(worlds, events, i - 1);
      StepKeepsInv(worlds[0].datasets, worlds[i - 1], events[i - 1], worlds[i]);
    }
  }

  /** Some run from these datasets reaches the world. */
  ghost predicate Reachable(start: Datasets, w: World) {
    exists worlds: seq<World>, events: seq<Event> ::
      IsRun(worlds, events) && worlds[0].datasets == start && worlds[|events|] == w
  }

  lemma StartIsReachable(start: Datasets)
    ensures Reachable(start, World(map[], start, []))
  {
    var worlds, events: seq<Event> := [World(map[], start, [])], [];
    assert IsRun(worlds, events) && worlds[|events|] == World(map[], start, []);
  }

  lemma ReachesFurther(start: Datasets, w: World, e: Event, w': World)
    requires Reachable(start, w) && Next(w, e, w')
    ensures Reachable(start, w')
  {
    var worlds: seq<World>, events: seq<Event> :|
      IsRun(worlds, events) && worlds[0].datasets == start && worlds[|events|] == w;
    var longer, more := worlds + [w'], events + [e];
    forall i | 0 <= i < |more| ensures Next(longer[i], more[i], longer[i + 1]) {
      assert i < |events| ==> more[i] == events[i] && longer[i + 1] == worlds[i + 1];
    }
    assert IsRun(longer, more) && longer[|more|] == w';
  }

  lemma ReachableIsSerializable(start: Datasets, w: World)
    requires Reachable(start, w)
    ensures Inv(start, w)
  {
    var worlds: seq<World>, events: seq<Event> :|
      IsRun(worlds, events) && worlds[0].datasets == start && worlds[|events|] == w;
    EveryRunIsSerializable(worlds, events, |events|);
  }

  // ---------------------------------------------------------------------
  // The log is the work that was done
  // ---------------------------------------------------------------------

  function StepsOf(log: seq<Section>, t: Task): seq<Step> {
    if log == [] then []
    else StepsOf(log[..|log| - 1], t) + (if log[|log| - 1].task == t then log[|log| - 1].steps else [])
  }

  function WorksOf(events: seq<Event>, t: Task): seq<Step> {
    if events == [] then []
    else WorksOf(events[..|events| - 1], t) + WorkOf(events[|events| - 1], t)
  }

  lemma StepsOneMore(log: seq<Section>, s: Section, t: Task)
    ensures StepsOf(log + [s], t) == if s.task == t then StepsOf(log, t) + s.steps else StepsOf(log, t)
  {
    var all := log + [s];
    assert all[..|all| - 1] == log && all[|all| - 1] == s;
  }

  lemma {:induction false} RecordingAddsTheStep(log: seq<Section>, t: Task, scope: Scope, step: Step, u: Task)
    requires Open(log, t, scope)
    ensures StepsOf(Recorded(log, t, step), u) == if u == t then StepsOf(log, u) + [step] else StepsOf(log, u)
  {
    var before, s := log[..|log| - 1], log[|log| - 1];
    assert log == before + [s];
    RecordedOneMore(before, s, t, step);
    StepsOneMore(before, s, u);
    if s.task == t {
      StepsOneMore(before, s.(steps := s.steps + [step]), u);
      assert StepsOf(before, u) + (s.steps + [step]) == StepsOf(before, u) + s.steps + [step];
    } else {
      StepsOneMore(Recorded(before, t, step), s, u);
      RecordingAddsTheStep(before, t, scope, step, u);
    }
  }

  /** No step is lost, invented or reordered: a task's sections hold exactly the steps it took, in its order. */
  lemma {:induction false} LogHoldsAllWork(worlds: seq<World>, events: seq<Event>, i: nat, t: Task)
    requires IsRun(worlds, events) && i < |worlds|
    ensures StepsOf(worlds[i].log, t) == WorksOf(events[..i], t)
  {
    if i > 0 {
      LogHoldsAllWork(worlds, events, i - 1, t);
      EveryRunIsSerializable(worlds, events, i - 1);
      assert events[..i][..i - 1] == events[..i - 1];
      LogGrowsByWork(worlds[0].datasets, worlds[i - 1], events[i - 1], worlds[i], t);
    }
  }

  function WorkOf(e: Event, t: Task): seq<Step> {
    if e.Work? && e.task == t then [e.step] else []
  }

  lemma LogGrowsByWork(start: Datasets, w: World, e: Event, w': World, t: Task)
    requires Inv(start, w) && Next(w, e, w')
    ensures StepsOf(w'.log, t) == StepsOf(w.log, t) + WorkOf(e, t)
  {
    assert StepsOf(w.log, t) + [] == StepsOf(w.log, t);
    if e.Work? {
      var scope := w.inside[e.task].scope;
      assert Holds(w.inside, e.task, scope);
      RecordingAddsTheStep(w.log, e.task, scope, e.step, t);
    } else if e.Acquire? {
      StepsOneMore(w.log, Section(e.task, w.inside[e.task].scope, []), t);
    }
  }

  /** The sections of one task, in the order of acquisition. */
  function SectionsOf(log: seq<Section>, t: Task): seq<Section> {
    if log == [] then []
    else
      var rest, last := SectionsOf(log[..|log| - 1], t), log[|log| - 1];
      if last.task == t then rest + [last] else rest
  }

  lemma SectionsOneMore(log: seq<Section>, s: Section, t: Task)
    ensures SectionsOf(log + [s], t) == if s.task == t then SectionsOf(log, t) + [s] else SectionsOf(log, t)
  {
    var all := log + [s];
    assert all[..|all| - 1] == log && all[|all| - 1] == s;
  }

  lemma {:induction false} RecordingSparesOthers(log: seq<Section>, u: Task, step: Step, t: Task)
    requires u != t
    ensures SectionsOf(Recorded(log, u, step), t) == SectionsOf(log, t)
  {
    if log != [] {
      var before, s := log[..|log| - 1], log[|log| - 1];
      assert log == before + [s];
      RecordedOneMore(before, s, u, step);
      SectionsOneMore(before, s, t);
      if s.task == u {
        SectionsOneMore(before, s.(steps := s.steps + [step]), t);
      } else {
        SectionsOneMore(Recorded(before, u, step), s, t);
        RecordingSparesOthers(before, u, step, t);
      }
    }
  }

  /** What other tasks do leaves a task where it is, whether waiting or holding, and its sections as they are. */
  lemma OthersLeaveTask(w: World, e: Event, w': World, t: Task)
    requires Next(w, e, w') && e.task != t
    ensures (t in w.inside <==> t in w'.inside) && (t in w.inside ==> w'.inside[t] == w.inside[t])
    ensures SectionsOf(w'.log, t) == SectionsOf(w.log, t)
  {
    match e
    case Acquire(u) => SectionsOneMore(w.log, Section(u, w.inside[u].scope, []), t);
    case Work(u, step) => RecordingSparesOthers(w.log, u, step, t);
    case _ =>
  }

  // ---------------------------------------------------------------------
  // A batch as a section
  // ---------------------------------------------------------------------

  lemma {:induction false} DoAllConcat(a: seq<Step>, b: seq<Step>, table: Table)
    ensures DoAll(a + b, table) == DoAll(b, DoAll(a, table))
  {
    if b == [] {
      assert a + b == a;
    } else {
      var n := |b| - 1;
      assert (a + b)[..|a + b| - 1] == a + b[..n];
      DoAllConcat(a, b[..n], table);
    }
  }

  function DeleteSteps(ids: seq<DataId>): (r: seq<Step>)
    ensures |r| == |ids| && forall i :: 0 <= i < |ids| ==> r[i] == DeleteRow(ids[i])
  {
    if ids == [] then [] else DeleteSteps(ids[..|ids| - 1]) + [DeleteRow(ids[|ids| - 1])]
  }

  function PurgeSteps(ids: seq<DataId>): (r: seq<Step>)
    ensures |r| == |ids| && forall i :: 0 <= i < |ids| ==> r[i] == PurgeRow(ids[i])
  {
    if ids == [] then [] else PurgeSteps(ids[..|ids| - 1]) + [PurgeRow(ids[|ids| - 1])]
  }

  function AddSteps(list: seq<Payload>): (r: seq<Step>)
    ensures |r| == |list| && forall i :: 0 <= i < |list| ==> r[i] == AddRow(list[i])
  {
    if list == [] then [] else AddSteps(list[..|list| - 1]) + [AddRow(list[|list| - 1])]
  }

  function SweepSteps(ids: seq<DataId>, processing: Fingerprint): (r: seq<Step>)
    ensures |r| == |ids| && forall i :: 0 <= i < |ids| ==> r[i] == CognifyRow(ids[i], processing)
  {
    if ids == [] then [] else SweepSteps(ids[..|ids| - 1], processing) + [CognifyRow(ids[|ids| - 1], processing)]
  }

  lemma LastElement(ids: seq<DataId>)
    requires ids != []
    ensures Elements(ids) == Elements(ids[..|ids| - 1]) + {ids[|ids| - 1]}
  {
  }

  lemma {:induction false} DeletesAsSteps(ids: seq<DataId>, table: Table)
    ensures DoAll(DeleteSteps(ids), table) == DeleteAll(table, Elements(ids))
  {
    if ids != [] {
      DeletesAsSteps(ids[..|ids| - 1], table);
      DoAllOneMore(DeleteSteps(ids[..|ids| - 1]), DeleteRow(ids[|ids| - 1]), table);
      LastElement(ids);
    }
  }

  lemma {:induction false} PurgesAsSteps(ids: seq<DataId>, table: Table)
    ensures DoAll(PurgeSteps(ids), table) == PurgeAll(table, Elements(ids))
  {
    if ids != [] {
      PurgesAsSteps(ids[..|ids| - 1], table);
      DoAllOneMore(PurgeSteps(ids[..|ids| - 1]), PurgeRow(ids[|ids| - 1]), table);
      LastElement(ids);
    }
  }

  lemma {:induction false} AddsAsSteps(list: seq<Payload>, table: Table)
    ensures DoAll(AddSteps(list), table) == AddSeq(table, list)
  {
    if list != [] {
      AddsAsSteps(list[..|list| - 1], table);
      DoAllOneMore(AddSteps(list[..|list| - 1]), AddRow(list[|list| - 1]), table);
    }
  }

  lemma {:induction false} SweepAsSteps(ids: seq<DataId>, processing: Fingerprint, table: Table)
    ensures DoAll(SweepSteps(ids, processing), table) == CognifyAll(table, Elements(ids), processing)
  {
    if ids != [] {
      SweepAsSteps(ids[..|ids| - 1], processing, table);
      DoAllOneMore(SweepSteps(ids[..|ids| - 1], processing), CognifyRow(ids[|ids| - 1], processing), table);
      LastElement(ids);
    }
  }

  lemma NoSweep(table: Table, processing: Fingerprint)
    ensures CognifyAll(table, {}, processing) == table
  {
  }

  /** The orders in which an apply goes through a batch. */
  datatype Orders = Orders(deletes: seq<DataId>, purges: seq<DataId>, ids: seq<DataId>, adds: seq<Payload>,
                           sweep: seq<DataId>)

  function PurgedTable(table: Table, b: Batch): Table {
    PurgeAll(DeleteAll(table, b.deletes), b.purges)
  }

  /** Each phase enumerates what it has to do; the sweep visits all rows. */
  ghost predicate Enumerates(o: Orders, b: Batch, table: Table) {
    && Elements(o.deletes) == b.deletes && Elements(o.purges) == b.purges && Elements(o.ids) == b.payloads.Keys
    && (forall i, j :: 0 <= i < j < |o.ids| ==> o.ids[i] != o.ids[j])
    && |o.adds| == |o.ids|
    && (forall i :: 0 <= i < |o.ids| ==> o.adds[i] == b.payloads[o.ids[i]] && o.adds[i].id == o.ids[i])
    && Elements(o.sweep) == if b.cognify then AddAll(PurgedTable(table, b), b.payloads).Keys else {}
  }

  function LaterSteps(o: Orders, processing: Fingerprint): seq<Step> {
    AddSteps(o.adds) + SweepSteps(o.sweep, processing)
  }

  function BatchSteps(o: Orders, processing: Fingerprint): seq<Step> {
    DeleteSteps(o.deletes) + (PurgeSteps(o.purges) + LaterSteps(o, processing))
  }

  lemma AddedSoFar(table: Table, b: Batch, o: Orders, n: nat)
    requires Enumerates(o, b, table) && n <= |o.adds|
    ensures AddSeq(PurgedTable(table, b), o.adds[..n]) ==
            AddAll(PurgedTable(table, b), Selected(b.payloads, Elements(o.ids[..n])))
  {
    AddSeqIsAddAll(PurgedTable(table, b), o.ids[..n], b.payloads, o.adds[..n]);
  }

  lemma AllAdded(table: Table, b: Batch, o: Orders)
    requires Enumerates(o, b, table)
    ensures AddSeq(PurgedTable(table, b), o.adds) == AddAll(PurgedTable(table, b), b.payloads)
  {
    AddedSoFar(table, b, o, |o.adds|);
    assert o.adds[..|o.adds|] == o.adds && o.ids[..|o.adds|] == o.ids;
    assert Selected(b.payloads, Elements(o.ids)) == b.payloads;
  }

  /** What the deletes, purges and adds leave. */
  lemma PhasesSoFar(table: Table, b: Batch, processing: Fingerprint, o: Orders, rest: seq<Step>)
    requires Enumerates(o, b, table)
    ensures DoAll(DeleteSteps(o.deletes) + rest, table) == DoAll(rest, DeleteAll(table, b.deletes))
    ensures DoAll(PurgeSteps(o.purges) + rest, DeleteAll(table, b.deletes)) == DoAll(rest, PurgedTable(table, b))
    ensures DoAll(AddSteps(o.adds) + rest, PurgedTable(table, b)) ==
            DoAll(rest, AddAll(PurgedTable(table, b), b.payloads))
  {
    DoAllConcat(DeleteSteps(o.deletes), rest, table);
    DeletesAsSteps(o.deletes, table);
    DoAllConcat(PurgeSteps(o.purges), rest, DeleteAll(table, b.deletes));
    PurgesAsSteps(o.purges, DeleteAll(table, b.deletes));
    DoAllConcat(AddSteps(o.adds), rest, PurgedTable(table, b));
    AddsAsSteps(o.adds, PurgedTable(table, b));
    AllAdded(table, b, o);
  }

  /** A section that runs to its end is the batch: what is serialized is whole applies. */
  lemma CompleteSectionIsTheBatch(table: Table, b: Batch, processing: Fingerprint, o: Orders)
    requires Enumerates(o, b, table)
    ensures DoAll(BatchSteps(o, processing), table) == ApplyBatch(table, b, processing)
  {
    var sweep := SweepSteps(o.sweep, processing);
    PhasesSoFar(table, b, processing, o, PurgeSteps(o.purges) + (AddSteps(o.adds) + sweep));
    PhasesSoFar(table, b, processing, o, AddSteps(o.adds) + sweep);
    PhasesSoFar(table, b, processing, o, sweep);
    SweepAsSteps(o.sweep, processing, AddAll(PurgedTable(table, b), b.payloads));
    NoSweep(AddAll(PurgedTable(table, b), b.payloads), processing);
  }

  // ---------------------------------------------------------------------
  // A section cut short
  // ---------------------------------------------------------------------

  /** The row that the next step would have deleted or purged, torn. */
  function TornAt(table: Table, torn: Option<DataId>): Table {
    if torn.None? then table else TearAt(table, torn.value)
  }

  lemma SameSteps(x: seq<Step>, y: seq<Step>)
    requires |x| == |y| && forall i :: 0 <= i < |x| ==> x[i] == y[i]
    ensures x == y
  {
  }

  lemma StoppedInDeletes(table: Table, b: Batch, processing: Fingerprint, o: Orders, n: nat, torn: Option<DataId>)
    requires Enumerates(o, b, table) && n < |o.deletes| && torn in {None, Some(o.deletes[n])}
    ensures CrashOutcome(table, b, processing, TornAt(DoAll(DeleteSteps(o.deletes)[..n], table), torn))
  {
    SameSteps(DeleteSteps(o.deletes)[..n], DeleteSteps(o.deletes[..n]));
    DeletesAsSteps(o.deletes[..n], table);
    DeleteCrash(table, b, processing, Elements(o.deletes[..n]), o.deletes[n], torn.Some?);
  }

  lemma StoppedInPurges(table: Table, b: Batch, processing: Fingerprint, o: Orders, n: nat, torn: Option<DataId>)
    requires Enumerates(o, b, table) && n < |o.purges| && torn in {None, Some(o.purges[n])}
    ensures StopsTorn(table, b, processing, o, PurgeSteps(o.purges)[..n], torn)
  {
    PhasesSoFar(table, b, processing, o, PurgeSteps(o.purges)[..n]);
    SameSteps(PurgeSteps(o.purges)[..n], PurgeSteps(o.purges[..n]));
    PurgesAsSteps(o.purges[..n], DeleteAll(table, b.deletes));
    PurgeCrash(table, b, processing, Elements(o.purges[..n]), o.purges[n], torn.Some?);
  }

  lemma StoppedInAdds(table: Table, b: Batch, processing: Fingerprint, o: Orders, n: nat)
    requires Enumerates(o, b, table) && n <= |o.adds|
    ensures StopsWell(table, b, processing, o, AddSteps(o.adds)[..n])
  {
    PhasesSoFar(table, b, processing, o, PurgeSteps(o.purges) + AddSteps(o.adds)[..n]);
    PhasesSoFar(table, b, processing, o, AddSteps(o.adds)[..n]);
    AddStepsPrefix(o.adds, n);
    AddsAsSteps(o.adds[..n], PurgedTable(table, b));
    AddedSoFar(table, b, o, n);
    AddCrash(table, b, processing, Elements(o.ids[..n]));
  }

  lemma {:induction false} AddStepsPrefix(list: seq<Payload>, n: nat)
    requires n <= |list|
    ensures AddSteps(list)[..n] == AddSteps(list[..n])
  {
    if n == |list| {
      assert list[..n] == list;
    } else {
      var front := list[..|list| - 1];
      AddStepsPrefix(front, n);
      assert front[..n] == list[..n];
      PrefixOfConcat(AddSteps(front), [AddRow(list[|list| - 1])], n);
      assert n == |front| ==> AddSteps(front) + [] == AddSteps(front);
    }
  }

  lemma SweptSoFar(ids: seq<DataId>, n: nat, processing: Fingerprint, table: Table)
    requires n <= |ids|
    ensures DoAll(SweepSteps(ids, processing)[..n], table) == CognifyAll(table, Elements(ids[..n]), processing)
  {
    SameSteps(SweepSteps(ids, processing)[..n], SweepSteps(ids[..n], processing));
    SweepAsSteps(ids[..n], processing, table);
  }

  lemma StoppedInSweep(table: Table, b: Batch, processing: Fingerprint, o: Orders, n: nat)
    requires Enumerates(o, b, table) && n < |o.sweep|
    ensures StopsWell(table, b, processing, o, AddSteps(o.adds) + SweepSteps(o.sweep, processing)[..n])
  {
    var sweep := SweepSteps(o.sweep, processing)[..n];
    PhasesSoFar(table, b, processing, o, PurgeSteps(o.purges) + (AddSteps(o.adds) + sweep));
    PhasesSoFar(table, b, processing, o, AddSteps(o.adds) + sweep);
    PhasesSoFar(table, b, processing, o, sweep);
    SweptSoFar(o.sweep, n, processing, AddAll(PurgedTable(table, b), b.payloads));
    assert o.sweep[n] in Elements(o.sweep);
    CognifyCrash(table, b, processing, Elements(o.sweep[..n]));
  }

  lemma PrefixOfConcat(a: seq<Step>, b: seq<Step>, n: nat)
    requires n <= |a| + |b|
    ensures (a + b)[..n] == if n < |a| then a[..n] else a + b[..n - |a|]
  {
  }

  /** Stopping after the deletes, the purges and these steps is one of the modelled interruptions. */
  ghost predicate StopsWell(table: Table, b: Batch, processing: Fingerprint, o: Orders, steps: seq<Step>) {
    CrashOutcome(table, b, processing, DoAll(DeleteSteps(o.deletes) + (PurgeSteps(o.purges) + steps), table))
  }

  lemma StoppedLater(table: Table, b: Batch, processing: Fingerprint, o: Orders, n: nat)
    requires Enumerates(o, b, table) && n <= |LaterSteps(o, processing)|
    ensures StopsWell(table, b, processing, o, LaterSteps(o, processing)[..n])
  {
    var later := LaterSteps(o, processing);
    PrefixOfConcat(AddSteps(o.adds), SweepSteps(o.sweep, processing), n);
    if n < |o.adds| {
      StoppedInAdds(table, b, processing, o, n);
      SameStepsStopWell(table, b, processing, o, AddSteps(o.adds)[..n], later[..n]);
    } else if n < |later| {
      var k := n - |o.adds|;
      StoppedInSweep(table, b, processing, o, k);
      SameStepsStopWell(table, b, processing, o, AddSteps(o.adds) + SweepSteps(o.sweep, processing)[..k], later[..n]);
    } else {
      StoppedAtTheEnd(table, b, processing, o);
      SameStepsStopWell(table, b, processing, o, later, later[..n]);
    }
  }

  lemma SameStepsStopWell(table: Table, b: Batch, processing: Fingerprint, o: Orders, x: seq<Step>, y: seq<Step>)
    requires x == y && StopsWell(table, b, processing, o, x)
    ensures StopsWell(table, b, processing, o, y)
  {
  }

  lemma StoppedAtTheEnd(table: Table, b: Batch, processing: Fingerprint, o: Orders)
    requires Enumerates(o, b, table)
    ensures StopsWell(table, b, processing, o, LaterSteps(o, processing))
  {
    CompleteSectionIsTheBatch(table, b, processing, o);
    CompletionIsAnOutcome(table, b, processing);
  }

  /** The same after the deletes and these steps, with a row torn at the end. */
  ghost predicate StopsTorn(table: Table, b: Batch, processing: Fingerprint, o: Orders, steps: seq<Step>,
                            torn: Option<DataId>) {
    CrashOutcome(table, b, processing, TornAt(DoAll(DeleteSteps(o.deletes) + steps, table), torn))
  }

  lemma SameStepsStopTorn(table: Table, b: Batch, processing: Fingerprint, o: Orders, x: seq<Step>, y: seq<Step>,
                          torn: Option<DataId>)
    requires x == y && StopsTorn(table, b, processing, o, x, torn)
    ensures StopsTorn(table, b, processing, o, y, torn)
  {
  }

  lemma StoppedBehindDeletes(table: Table, b: Batch, processing: Fingerprint, o: Orders, n: nat, torn: Option<DataId>)
    requires Enumerates(o, b, table) && n <= |PurgeSteps(o.purges) + LaterSteps(o, processing)|
    requires torn.Some? ==> n < |o.purges| && torn.value == o.purges[n]
    ensures StopsTorn(table, b, processing, o, (PurgeSteps(o.purges) + LaterSteps(o, processing))[..n], torn)
  {
    var purges, later := PurgeSteps(o.purges), LaterSteps(o, processing);
    PrefixOfConcat(purges, later, n);
    if n < |o.purges| {
      StoppedInPurges(table, b, processing, o, n, torn);
      SameStepsStopTorn(table, b, processing, o, purges[..n], (purges + later)[..n], torn);
    } else {
      var k := n - |o.purges|;
      StoppedLater(table, b, processing, o, k);
      NothingTorn(table, b, processing, o, later[..k]);
      SameStepsStopTorn(table, b, processing, o, purges + later[..k], (purges + later)[..n], torn);
    }
  }

  lemma NothingTorn(table: Table, b: Batch, processing: Fingerprint, o: Orders, steps: seq<Step>)
    requires StopsWell(table, b, processing, o, steps)
    ensures StopsTorn(table, b, processing, o, PurgeSteps(o.purges) + steps, None)
  {
  }

  /** Tears happen in deletes and purges only. */
  lemma TornStep(o: Orders, processing: Fingerprint, n: nat, id: DataId)
    requires n < |BatchSteps(o, processing)| && BatchSteps(o, processing)[n] in {DeleteRow(id), PurgeRow(id)}
    ensures n < |o.deletes| + |o.purges|
    ensures id == if n < |o.deletes| then o.deletes[n] else o.purges[n - |o.deletes|]
  {
    var later := LaterSteps(o, processing);
    if n >= |o.deletes| {
      assert BatchSteps(o, processing)[n] == (PurgeSteps(o.purges) + later)[n - |o.deletes|];
    }
    assert forall i :: 0 <= i < |later| ==> !later[i].DeleteRow? && !later[i].PurgeRow?;
  }

  /**
   A section cut short anywhere, with or without a tear in the next delete or purge, leaves a store
   that the convergence theorem allows an interrupted sync to leave.
   */
  lemma TruncatedSectionIsACrash(table: Table, b: Batch, processing: Fingerprint, o: Orders, n: nat,
                                 torn: Option<DataId>)
    requires Enumerates(o, b, table) && n <= |BatchSteps(o, processing)|
    requires torn.Some? ==> n < |BatchSteps(o, processing)| &&
                            BatchSteps(o, processing)[n] in {DeleteRow(torn.value), PurgeRow(torn.value)}
    ensures CrashOutcome(table, b, processing, TornAt(DoAll(BatchSteps(o, processing)[..n], table), torn))
  {
    if torn.Some? {
      TornStep(o, processing, n, torn.value);
    }
    var dels, rest := DeleteSteps(o.deletes), PurgeSteps(o.purges) + LaterSteps(o, processing);
    PrefixOfConcat(dels, rest, n);
    if n < |o.deletes| {
      StoppedInDeletes(table, b, processing, o, n, torn);
      SameStepsCrashAlike(table, b, processing, dels[..n], (dels + rest)[..n], torn);
    } else {
      var k := n - |o.deletes|;
      StoppedBehindDeletes(table, b, processing, o, k, torn);
      SameStepsCrashAlike(table, b, processing, dels + rest[..k], (dels + rest)[..n], torn);
    }
  }

  lemma SameStepsCrashAlike(table: Table, b: Batch, processing: Fingerprint, x: seq<Step>, y: seq<Step>,
                            torn: Option<DataId>)
    requires x == y && CrashOutcome(table, b, processing, TornAt(DoAll(x, table), torn))
    ensures CrashOutcome(table, b, processing, TornAt(DoAll(y, table), torn))
  {
  }

  // ---------------------------------------------------------------------
  // Runs of batches and teardowns
  // ---------------------------------------------------------------------

  /**
   What a task does in its critical section: a teardown, or an apply of which `done` steps were taken
   and whose next delete or purge may be torn.
   */
  datatype Job =
    | Removal
    | Apply(batch: Batch, processing: Fingerprint, orders: Orders, done: nat, torn: Option<DataId>)

  /** The section's steps are those of the job, as far as it came, on a dataset that was `table` at the start. */
  ghost predicate Does(job: Job, steps: seq<Step>, table: Table) {
    match job
    case Removal => steps in {[], [Teardown]}
    case Apply(b, p, o, done, torn) =>
      && Enumerates(o, b, table) && done <= |BatchSteps(o, p)|
      && (torn.Some? ==>
            done < |BatchSteps(o, p)| && BatchSteps(o, p)[done] in {DeleteRow(torn.value), PurgeRow(torn.value)})
      && steps == BatchSteps(o, p)[..done] + if torn.None? then [] else [TearRow(torn.value)]
  }

  /** What the job may make of a dataset. */
  ghost predicate Yields(job: Job, before: Table, after: Table) {
    match job
    case Removal => after in {before, map[]}
    case Apply(b, p, o, done, torn) =>
      && CrashOutcome(before, b, p, after)
      && (done == |BatchSteps(o, p)| ==> after == ApplyBatch(before, b, p))
  }

  lemma TornSteps(steps: seq<Step>, torn: Option<DataId>, table: Table)
    ensures DoAll(steps + (if torn.None? then [] else [TearRow(torn.value)]), table) ==
            TornAt(DoAll(steps, table), torn)
  {
    if torn.None? {
      assert steps + [] == steps;
    } else {
      DoAllOneMore(steps, TearRow(torn.value), table);
    }
  }

  lemma JobYields(job: Job, steps: seq<Step>, table: Table)
    requires Does(job, steps, table)
    ensures Yields(job, table, DoAll(steps, table))
  {
    match job
    case Removal =>
      DoAllOneMore([], Teardown, table);
      assert [] + [Teardown] == [Teardown];
    case Apply(b, p, o, done, torn) =>
      TornSteps(BatchSteps(o, p)[..done], torn, table);
      TruncatedSectionIsACrash(table, b, p, o, done, torn);
      if done == |BatchSteps(o, p)| {
        assert BatchSteps(o, p)[..done] == BatchSteps(o, p);
        CompleteSectionIsTheBatch(table, b, p, o);
      }
  }

  /** Each section does its job on the dataset that the sections before it leave. */
  ghost predicate AllDo(jobs: seq<Job>, start: Datasets, log: seq<Section>) {
    |jobs| == |log| &&
    forall i :: 0 <= i < |log| ==> Does(jobs[i], log[i].steps, TableOf(Serial(start, log[..i]), log[i].scope))
  }

  lemma SectionYields(start: Datasets, log: seq<Section>, jobs: seq<Job>, i: nat, scope: Scope)
    requires AllDo(jobs, start, log) && i < |log|
    ensures var before, after := TableOf(Serial(start, log[..i]), scope), TableOf(Serial(start, log[..i + 1]), scope);
            if log[i].scope == scope then Yields(jobs[i], before, after) else after == before
  {
    assert log[..i + 1] == log[..i] + [log[i]];
    SerialOneMore(start, log[..i], log[i], scope);
    if log[i].scope == scope {
      JobYields(jobs[i], log[i].steps, TableOf(Serial(start, log[..i]), scope));
    }
  }

  /**
   If in every critical section a task applies a batch, as far as it comes, or tears down, then at any
   moment of any interleaving each dataset has come about, from what it was at the start, by one
   outcome after the other: whole batches, interrupted batches that the convergence theorem covers,
   and removals, each of them undisturbed by the rest.
   */
  lemma RunsAreChainsOfJobs(worlds: seq<World>, events: seq<Event>, i: nat, jobs: seq<Job>, scope: Scope)
    requires IsRun(worlds, events) && i < |worlds| && AllDo(jobs, worlds[0].datasets, worlds[i].log)
    ensures var start, log := worlds[0].datasets, worlds[i].log;
            && TableOf(Serial(start, log[..0]), scope) == TableOf(start, scope)
            && TableOf(Serial(start, log[..|log|]), scope) == TableOf(worlds[i].datasets, scope)
            && forall j :: 0 <= j < |log| ==>
                 var before, after := TableOf(Serial(start, log[..j]), scope),
                     TableOf(Serial(start, log[..j + 1]), scope);
                 if log[j].scope == scope then Yields(jobs[j], before, after) else after == before
  {
    var start, log := worlds[0].datasets, worlds[i].log;
    EveryRunIsSerializable(worlds, events, i);
    assert log[..|log|] == log;
    forall j | 0 <= j < |log|
      ensures var before, after := TableOf(Serial(start, log[..j]), scope), TableOf(Serial(start, log[..j + 1]), scope);
              if log[j].scope == scope then Yields(jobs[j], before, after) else after == before
    {
      SectionYields(start, log, jobs, j, scope);
    }
  }
}
