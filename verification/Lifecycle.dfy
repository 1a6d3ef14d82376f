/// The chart lifecycle as a transition system (internal/engine/orchestrator.go,
/// internal/engine/reconcile.go).
///
/// `World` is what survives a crash: the chart_state table and the machines kraft
/// knows. A process is either repairing the world after a start (`Repair`) or
/// serving (`Up`) with at most one operation in flight per chart. Every command
/// and every write may succeed, fail without effect, or fail after taking effect.
module Lifecycle {
  import opened Names

  // internal/persistence/charts.go pins the stored values. A row read back can
  // hold any integer, so the state is not narrowed to these four.
  type ChartState = int
  const STARTING: ChartState := 1
  const STARTED: ChartState := 2
  const STOPPING: ChartState := 3
  const STOPPED: ChartState := 4

  const RUNNING := "running"

  datatype World = World(rows: map<string, ChartState>, machines: map<string, string>)

  /** The chart has a row that is not Stopped. */
  predicate Live(w: World, c: string) {
    c in w.rows && w.rows[c] != STOPPED
  }

  /** No machine carries the chart's prefix. */
  ghost predicate Quiet(w: World, c: string) {
    forall n :: n in w.machines ==> !Owns(c, n)
  }

  // ---- Commands and writes: what each may do to the world ----

  /** UpdateChartState: one upsert. */
  ghost predicate Wrote(w: World, w': World, c: string, st: ChartState, ok: bool) {
    || w' == w.(rows := w.rows[c := st])
    || (!ok && w' == w)
  }

  ghost predicate OnlyMachine(w: World, w': World, n: string) {
    w'.rows == w.rows && w'.machines - {n} == w.machines - {n}
  }

  /** kraft stop: a machine started with --rm disappears when it stops. */
  ghost predicate StopRan(w: World, w': World, n: string, ok: bool) {
    && OnlyMachine(w, w', n)
    && (n in w'.machines ==> n in w.machines)
    && (ok && n in w'.machines ==> w'.machines[n] != RUNNING)
  }

  /** kraft rm. */
  ghost predicate RmRan(w: World, w': World, n: string, ok: bool) {
    && OnlyMachine(w, w', n)
    && (n in w'.machines ==> n in w.machines && w'.machines[n] == w.machines[n])
    && (ok ==> n !in w'.machines)
  }

  /** kraft run. */
  ghost predicate BootRan(w: World, w': World, n: string, ok: bool) {
    && OnlyMachine(w, w', n)
    && (ok || n in w.machines ==> n in w'.machines)
  }

  /** Guests exit and vanish on their own; machines of others are not modelled further. */
  ghost predicate EnvironmentRan(w: World, w': World) {
    && w'.rows == w.rows
    && (forall n :: n in w'.machines ==> n in w.machines)
    && ForeignKept(w, w')
  }

  ghost predicate ForeignKept(w: World, w': World) {
    forall n :: !IsLayer(n) ==>
      && (n in w.machines <==> n in w'.machines)
      && (n in w.machines ==> w'.machines[n] == w.machines[n])
  }

  // ---- The removal loop of clearStaleMachines and teardownChart ----

  /** Where the loop stands: about to list, about to stop the head, or about to rm it. */
  datatype Removal = Listing | Stopping(todo: seq<string>) | Removing(todo: seq<string>)

  datatype Progress = More(removal: Removal) | Cleared | GaveUp

  /** chartMachines: the names kraft lists under the chart's prefix. */
  ghost predicate ListsMachinesOf(w: World, c: string, todo: seq<string>) {
    forall n :: n in todo <==> n in w.machines && Owns(c, n)
  }

  ghost predicate RemovalStep(c: string, w: World, at: Removal, w': World, next: Progress) {
    match at
    case Listing =>
      && w' == w
      && (next.GaveUp? || (next.More? && next.removal.Stopping? && ListsMachinesOf(w, c, next.removal.todo)))
    case Stopping(todo) =>
      if todo == [] then
        w' == w && next.Cleared?
      else
        || (StopRan(w, w', todo[0], true) && next == More(Removing(todo)))
        || (StopRan(w, w', todo[0], false) && next.GaveUp?)
    case Removing(todo) =>
      && todo != []
      && (|| (RmRan(w, w', todo[0], true) && next == More(Stopping(todo[1..])))
          || (RmRan(w, w', todo[0], false) && next.GaveUp?))
  }

  // ---- Operations on one chart ----

  /** Program counters. KillChart and abortStart do the same three things in the
      same order (mark Stopping, tear down, mark Stopped), so they share the last three. */
  datatype Pc =
    | Clear(removal: Removal)
    | Refused
    | Preflight
    | MarkStarting
    | Boot(next: nat)
    | MarkStarted
    | MarkStopping
    | Teardown(removal: Removal)
    | MarkStopped

  /** `layers` are the layer IDs of the chart in the order the three boot loops visit them. */
  datatype Op = Op(layers: seq<string>, pc: Pc)

  datatype MaybeOp = Running(op: Op) | Returned

  ghost predicate NoneRunning(w: World, names: seq<string>) {
    forall n :: n in names && n in w.machines ==> w.machines[n] != RUNNING
  }

  /** A machine of the chart runs. */
  ghost predicate OwnRuns(w: World, c: string) {
    exists n :: n in w.machines && Owns(c, n) && w.machines[n] == RUNNING
  }

  ghost predicate OpStep(c: string, w: World, op: Op, w': World, next: MaybeOp) {
    match op.pc
    case Clear(at) =>
      || (w' == w && at.Listing? && OwnRuns(w, c) && next == Running(op.(pc := Refused)))
      || exists p :: RemovalStep(c, w, at, w', p) && ClearNext(w, op, at, p, next)
    case Refused =>
      w' == w && next.Returned?
    case Preflight =>
      w' == w && (next.Returned? || next == Running(op.(pc := MarkStarting)))
    case MarkStarting =>
      || (Wrote(w, w', c, STARTING, true) && next == Running(op.(pc := Boot(0))))
      || (Wrote(w, w', c, STARTING, false) && next.Returned?)
    case Boot(i) =>
      if i >= |op.layers| then
        w' == w && next == Running(op.(pc := MarkStarted))
      else
        || (w' == w && next == Running(op.(pc := MarkStopping)))
        || (BootRan(w, w', MachineName(c, op.layers[i]), true) && next == Running(op.(pc := Boot(i + 1))))
        || (BootRan(w, w', MachineName(c, op.layers[i]), false) && next == Running(op.(pc := MarkStopping)))
    case MarkStarted =>
      Wrote(w, w', c, STARTED, false) && next.Returned?
    case MarkStopping =>
      || (Wrote(w, w', c, STOPPING, true) && next == Running(op.(pc := Teardown(Listing))))
      || (Wrote(w, w', c, STOPPING, false) && next.Returned?)
    case Teardown(at) =>
      exists p :: RemovalStep(c, w, at, w', p) && TeardownNext(op, p, next)
    case MarkStopped =>
      Wrote(w, w', c, STOPPED, false) && next.Returned?
  }

  ghost predicate ClearNext(w: World, op: Op, at: Removal, p: Progress, next: MaybeOp) {
    match p
    case More(r) =>
      && next == Running(op.(pc := Clear(r)))
      // a running machine among those listed refuses the start instead
      && (at.Listing? && r.Stopping? ==> NoneRunning(w, r.todo))
    case Cleared => next == Running(op.(pc := Preflight))
    case GaveUp => next.Returned?
  }

  ghost predicate TeardownNext(op: Op, p: Progress, next: MaybeOp) {
    match p
    case More(r) => next == Running(op.(pc := Teardown(r)))
    case Cleared => next == Running(op.(pc := MarkStopped))
    case GaveUp => next.Returned?
  }

  // ---- Reconcile ----

  datatype Phase =
    | LoadRows
    | LoadMachines(pending: set<string>)
    | Charts(pending: set<string>, handled: set<string>, listed: seq<string>)
    | TakeDown(c: string, removal: Removal, pending: set<string>, handled: set<string>, listed: seq<string>)
    | MarkDown(c: string, pending: set<string>, handled: set<string>, listed: seq<string>)
    | StopOrphan(todo: seq<string>, handled: set<string>)
    | RmOrphan(todo: seq<string>, handled: set<string>)

  datatype Mode = Up | Repair(phase: Phase)

  ghost function NonStopped(rows: map<string, ChartState>): set<string> {
    set c | c in rows && rows[c] != STOPPED
  }

  ghost predicate OwnedByHandled(n: string, handled: set<string>) {
    exists c :: c in handled && Owns(c, n)
  }

  ghost predicate RepairStep(w: World, phase: Phase, w': World, next: Mode) {
    match phase
    case LoadRows =>
      w' == w && (next == Repair(LoadRows) || next == Repair(LoadMachines(NonStopped(w.rows))))
    case LoadMachines(pending) =>
      && w' == w
      && (|| next == Repair(LoadRows)
          || (next.Repair? && next.phase.Charts? && next.phase.pending == pending && next.phase.handled == {} &&
              forall n :: n in next.phase.listed <==> n in w.machines))
    case Charts(pending, handled, listed) =>
      && w' == w
      && (if pending == {} then
            next == Repair(StopOrphan(listed, handled))
          else
            exists c :: c in pending && next == Repair(TakeDown(c, Listing, pending - {c}, handled + {c}, listed)))
    case TakeDown(c, at, pending, handled, listed) =>
      exists p :: RemovalStep(c, w, at, w', p) &&
                  next == Repair(TakeDownNext(c, p, pending, handled, listed))
    case MarkDown(c, pending, handled, listed) =>
      Wrote(w, w', c, STOPPED, false) && next == Repair(Charts(pending, handled, listed))
    case StopOrphan(todo, handled) =>
      if todo == [] then
        w' == w && next == Up
      else if !IsLayer(todo[0]) || OwnedByHandled(todo[0], handled) then
        w' == w && next == Repair(StopOrphan(todo[1..], handled))
      else
        || (StopRan(w, w', todo[0], true) && next == Repair(RmOrphan(todo, handled)))
        || (StopRan(w, w', todo[0], false) && next == Repair(StopOrphan(todo[1..], handled)))
    case RmOrphan(todo, handled) =>
      && todo != []
      && IsLayer(todo[0])
      && RmRan(w, w', todo[0], false)
      && next == Repair(StopOrphan(todo[1..], handled))
  }

  ghost function TakeDownNext(c: string, p: Progress, pending: set<string>, handled: set<string>,
                              listed: seq<string>): Phase {
    match p
    case More(r) => TakeDown(c, r, pending, handled, listed)
    case Cleared => MarkDown(c, pending, handled, listed)
    case GaveUp => Charts(pending, handled, listed)
  }

  // ---- The whole system ----

  datatype Sys = Sys(world: World, mode: Mode, ops: map<string, Op>)

  function At(s: Sys, c: string): MaybeOp {
    if c in s.ops then Running(s.ops[c]) else Returned
  }

  ghost predicate OpMoves(s: Sys, s': Sys, c: string) {
    && s.mode.Up? && s'.mode.Up?
    && c in s.ops
    && s'.ops - {c} == s.ops - {c}
    && OpStep(c, s.world, s.ops[c], s'.world, At(s', c))
  }

  /** A call arrives: the chart spec is whatever was saved last, so `layers` is arbitrary. */
  ghost predicate OpArrives(ids: set<string>, s: Sys, s': Sys, c: string) {
    && s.mode.Up? && s'.mode.Up?
    && c in ids && c !in s.ops && c in s'.ops
    && s'.world == s.world
    && s'.ops - {c} == s.ops
    && (s'.ops[c].pc == Clear(Listing) || s'.ops[c].pc == MarkStopping)
  }

  ghost predicate RepairMoves(s: Sys, s': Sys) {
    && s.mode.Repair?
    && s'.ops == s.ops
    && RepairStep(s.world, s.mode.phase, s'.world, s'.mode)
  }

  ghost predicate EnvironmentMoves(s: Sys, s': Sys) {
    s'.mode == s.mode && s'.ops == s.ops && EnvironmentRan(s.world, s'.world)
  }

  /** The process dies between any two steps and is started again. */
  ghost predicate Crashes(s: Sys, s': Sys) {
    s' == Sys(s.world, Repair(LoadRows), map[])
  }

  ghost predicate Next(ids: set<string>, s: Sys, s': Sys) {
    || EnvironmentMoves(s, s')
    || Crashes(s, s')
    || RepairMoves(s, s')
    || (exists c :: OpMoves(s, s', c))
    || (exists c :: OpArrives(ids, s, s', c))
  }

  /** First start on a host that has no layer of the runner; the rows may be anything. */
  ghost predicate Init(s: Sys) {
    && s.mode == Repair(LoadRows)
    && s.ops == map[]
    && forall n :: n in s.world.machines ==> !IsLayer(n)
  }

  ghost predicate IsRun(ids: set<string>, run: seq<Sys>) {
    && |run| > 0
    && forall i :: 0 <= i < |run| - 1 ==> Next(ids, run[i], run[i + 1])
  }

  // ---- The inductive invariant ----

  /** Write-ahead intent: a machine exists only under a chart whose row says so. */
  ghost predicate WriteAhead(ids: set<string>, w: World) {
    && (forall n :: n in w.machines && IsLayer(n) ==> HasOwner(ids, n))
    && (forall c, n :: c in ids && n in w.machines && Owns(c, n) ==> Live(w, c))
  }

  ghost predicate HasOwner(ids: set<string>, n: string) {
    exists c :: c in ids && Owns(c, n)
  }

  /** What is still to be removed is the chart's, and covers all that is left of it. */
  ghost predicate Covers(w: World, c: string, at: Removal) {
    !at.Listing? ==>
      && (forall n :: n in at.todo ==> Owns(c, n))
      && (forall n :: n in w.machines && Owns(c, n) ==> n in at.todo)
  }

  ghost predicate OpOk(w: World, c: string, op: Op) {
    match op.pc
    case Clear(at) => Covers(w, c, at)
    case Refused => true
    case Preflight => Quiet(w, c)
    case MarkStarting => Quiet(w, c)
    case Boot(_) => Live(w, c)
    case MarkStarted => Live(w, c)
    case MarkStopping => true
    case Teardown(at) => Live(w, c) && Covers(w, c, at)
    case MarkStopped => Quiet(w, c)
  }

  ghost predicate RepairOk(w: World, phase: Phase) {
    match phase
    case TakeDown(c, at, _, _, _) => Covers(w, c, at)
    case MarkDown(c, _, _, _) => Quiet(w, c)
    case _ => true
  }

  ghost predicate Inv(ids: set<string>, s: Sys) {
    && WriteAhead(ids, s.world)
    && (forall c :: c in s.ops ==> c in ids && OpOk(s.world, c, s.ops[c]))
    && (s.mode.Repair? ==> s.ops == map[] && RepairOk(s.world, s.mode.phase))
  }

  // ---- Isolation between charts ----

  /** The chart's row and its machines are exactly as before. */
  ghost predicate Untouched(w: World, w': World, d: string) {
    && (d in w.rows <==> d in w'.rows)
    && (d in w.rows ==> w'.rows[d] == w.rows[d])
    && forall n :: Owns(d, n) ==>
      && (n in w.machines <==> n in w'.machines)
      && (n in w.machines ==> w'.machines[n] == w.machines[n])
  }

  /** The chart's row is as before and no machine of it has appeared. */
  ghost predicate Kept(w: World, w': World, d: string) {
    && (d in w.rows <==> d in w'.rows)
    && (d in w.rows ==> w'.rows[d] == w.rows[d])
    && forall n :: Owns(d, n) && n in w'.machines ==> n in w.machines
  }

  /** The world differs from before at one chart at most. */
  ghost predicate OnlyChart(w: World, w': World, c: string) {
    && w'.rows - {c} == w.rows - {c}
    && forall n :: !Owns(c, n) ==>
      && (n in w.machines <==> n in w'.machines)
      && (n in w.machines ==> w'.machines[n] == w.machines[n])
  }

  lemma MachineOfChart(w: World, w': World, c: string, n: string)
    requires OnlyMachine(w, w', n) && Owns(c, n)
    ensures OnlyChart(w, w', c)
  {
    forall m | !Owns(c, m)
      ensures m in w.machines <==> m in w'.machines
      ensures m in w.machines ==> w'.machines[m] == w.machines[m]
    {
      assert m in w.machines <==> m in w.machines - {n};
      assert m in w'.machines <==> m in w'.machines - {n};
      if m in w.machines {
        assert (w.machines - {n})[m] == (w'.machines - {n})[m];
      }
    }
  }

  lemma RemovalTouchesItsChart(c: string, w: World, at: Removal, w': World, next: Progress)
    requires RemovalStep(c, w, at, w', next) && Covers(w, c, at)
    ensures OnlyChart(w, w', c)
    ensures w'.rows == w.rows
  {
    if !at.Listing? && at.todo != [] {
      assert at.todo[0] in at.todo;
      MachineOfChart(w, w', c, at.todo[0]);
    }
  }

  lemma StepTouchesItsChart(c: string, w: World, op: Op, w': World, next: MaybeOp)
    requires OpStep(c, w, op, w', next) && OpOk(w, c, op)
    ensures OnlyChart(w, w', c)
  {
    match op.pc
    case Clear(at) =>
      if w' != w {
        var p :| RemovalStep(c, w, at, w', p) && ClearNext(w, op, at, p, next);
        RemovalTouchesItsChart(c, w, at, w', p);
      }
    case Boot(i) =>
      if i < |op.layers| && w' != w {
        OwnsItsLayers(c, op.layers[i]);
        MachineOfChart(w, w', c, MachineName(c, op.layers[i]));
      }
    case Teardown(at) =>
      var p :| RemovalStep(c, w, at, w', p) && TeardownNext(op, p, next);
      RemovalTouchesItsChart(c, w, at, w', p);
    case _ =>
  }

  lemma OnlyChartLeavesOthers(w: World, w': World, c: string, d: string)
    requires OnlyChart(w, w', c) && c != d && !Collide(c, d)
    ensures Untouched(w, w', d)
  {
    assert d in w.rows <==> d in w.rows - {c};
    assert d in w'.rows <==> d in w'.rows - {c};
    if d in w.rows {
      assert (w.rows - {c})[d] == (w'.rows - {c})[d];
    }
    forall n | Owns(d, n)
      ensures !Owns(c, n)
    {
      if Owns(c, n) {
        OwnedByBoth(c, d, n);
      }
    }
  }

  /** Isolation: no step of an operation on one chart changes another chart's row
      or machines, nor where the other chart's own operation stands. */
  lemma OperationsAreIsolated(ids: set<string>, s: Sys, s': Sys, c: string, d: string)
    requires PrefixFree(ids) && Inv(ids, s) && OpMoves(s, s', c)
    requires d in ids && d != c
    ensures Untouched(s.world, s'.world, d)
    ensures At(s', d) == At(s, d)
  {
    StepTouchesItsChart(c, s.world, s.ops[c], s'.world, At(s', c));
    OnlyChartLeavesOthers(s.world, s'.world, c, d);
    OpsElsewhere(s, s', c, d);
  }

  lemma OpsElsewhere(s: Sys, s': Sys, c: string, d: string)
    requires s'.ops - {c} == s.ops - {c} && d != c
    ensures At(s', d) == At(s, d)
  {
    assert d in s.ops <==> d in s.ops - {c};
    assert d in s'.ops <==> d in s'.ops - {c};
    if d in s.ops {
      assert (s.ops - {c})[d] == (s'.ops - {c})[d];
    }
  }

  /** When the listing at the head of a start succeeds, the start is refused if and only if
      one of the chart's own machines runs; nothing of other charts has a say in it. */
  lemma RefusalIsOwn(c: string, w: World, op: Op, w': World, next: MaybeOp)
    requires op.pc == Clear(Listing) && OpStep(c, w, op, w', next) && next.Running?
    ensures next.op.pc.Refused? <==> OwnRuns(w, c)
    ensures forall v :: Untouched(w, v, c) ==> (next.op.pc.Refused? <==> OwnRuns(v, c))
  {
    if !next.op.pc.Refused? {
      var todo := next.op.pc.removal.todo;
      assert ListsMachinesOf(w, c, todo) && NoneRunning(w, todo);
      forall n | n in w.machines && Owns(c, n)
        ensures w.machines[n] != RUNNING
      {
        assert n in todo;
      }
    }
    forall v | Untouched(w, v, c)
      ensures OwnRuns(w, c) <==> OwnRuns(v, c)
    {
      SameRunning(w, v, c);
    }
  }

  lemma SameRunning(w: World, v: World, c: string)
    requires Untouched(w, v, c)
    ensures OwnRuns(w, c) <==> OwnRuns(v, c)
  {
    if OwnRuns(w, c) {
      var n :| n in w.machines && Owns(c, n) && w.machines[n] == RUNNING;
      assert n in v.machines && v.machines[n] == RUNNING;
    }
    if OwnRuns(v, c) {
      var n :| n in v.machines && Owns(c, n) && v.machines[n] == RUNNING;
      assert n in w.machines && w.machines[n] == RUNNING;
    }
  }

  // ---- Preservation ----

  lemma KeptOps(w: World, w': World, d: string, op: Op)
    requires OpOk(w, d, op) && Kept(w, w', d)
    ensures OpOk(w', d, op)
  {
  }

  lemma RemovalKeepsCover(c: string, w: World, at: Removal, w': World, next: Progress)
    requires RemovalStep(c, w, at, w', next) && Covers(w, c, at)
    ensures next.More? ==> Covers(w', c, next.removal)
    ensures next.Cleared? ==> Quiet(w', c)
    ensures forall n :: n in w'.machines ==> n in w.machines
  {
    match at
    case Listing =>
    case Stopping(todo) =>
      if todo != [] {
        MachinesShrink(w, w', todo[0]);
      }
    case Removing(todo) =>
      MachinesShrink(w, w', todo[0]);
      assert todo == [todo[0]] + todo[1..];
  }

  lemma MachinesShrink(w: World, w': World, n: string)
    requires OnlyMachine(w, w', n) && (n in w'.machines ==> n in w.machines)
    ensures forall m :: m in w'.machines ==> m in w.machines
  {
    forall m | m in w'.machines
      ensures m in w.machines
    {
      if m != n {
        assert m in w'.machines - {n};
      }
    }
  }

  lemma OpStepKeepsItsOwn(c: string, w: World, op: Op, w': World, next: MaybeOp)
    requires OpStep(c, w, op, w', next) && OpOk(w, c, op)
    requires forall n :: n in w.machines && Owns(c, n) ==> Live(w, c)
    ensures next.Running? ==> OpOk(w', c, next.op)
    ensures forall n :: n in w'.machines && Owns(c, n) ==> Live(w', c)
  {
    match op.pc
    case Clear(at) =>
      if !(next.Running? && next.op.pc.Refused?) {
        var p :| RemovalStep(c, w, at, w', p) && ClearNext(w, op, at, p, next);
        RemovalKeepsCover(c, w, at, w', p);
        RemovalTouchesItsChart(c, w, at, w', p);
      }
    case Teardown(at) =>
      var p :| RemovalStep(c, w, at, w', p) && TeardownNext(op, p, next);
      RemovalKeepsCover(c, w, at, w', p);
      RemovalTouchesItsChart(c, w, at, w', p);
    case _ =>
  }

  lemma ForeignStaysForeign(ids: set<string>, w: World, w': World, c: string)
    requires WriteAhead(ids, w) && c in ids && OnlyChart(w, w', c)
    ensures forall n :: n in w'.machines && IsLayer(n) ==> HasOwner(ids, n)
  {
  }

  lemma OpMovesKeepInv(ids: set<string>, s: Sys, s': Sys, c: string)
    requires PrefixFree(ids) && Inv(ids, s) && OpMoves(s, s', c)
    ensures Inv(ids, s')
  {
    var w, w' := s.world, s'.world;
    StepTouchesItsChart(c, w, s.ops[c], w', At(s', c));
    OpStepKeepsItsOwn(c, w, s.ops[c], w', At(s', c));
    ForeignStaysForeign(ids, w, w', c);
    forall d | d in ids && d != c
      ensures Untouched(w, w', d)
      ensures At(s', d) == At(s, d)
    {
      OperationsAreIsolated(ids, s, s', c, d);
    }
    forall d, n | d in ids && n in w'.machines && Owns(d, n)
      ensures Live(w', d)
    {
      if d != c {
        assert Untouched(w, w', d);
      }
    }
    forall d | d in s'.ops
      ensures d in ids && OpOk(w', d, s'.ops[d])
    {
      if d != c {
        OpsElsewhere(s, s', c, d);
        assert d in ids;
        KeptOps(w, w', d, s.ops[d]);
      }
    }
  }

  lemma OpArrivesKeepsInv(ids: set<string>, s: Sys, s': Sys, c: string)
    requires Inv(ids, s) && OpArrives(ids, s, s', c)
    ensures Inv(ids, s')
  {
    forall d | d in s'.ops && d != c
      ensures d in s.ops && s'.ops[d] == s.ops[d]
    {
      assert d in s'.ops - {c};
    }
  }

  lemma ShrinkKeepsWriteAhead(ids: set<string>, w: World, w': World)
    requires WriteAhead(ids, w) && w'.rows == w.rows
    requires forall n :: n in w'.machines ==> n in w.machines
    ensures WriteAhead(ids, w')
  {
  }

  lemma EnvironmentKeepsInv(ids: set<string>, s: Sys, s': Sys)
    requires Inv(ids, s) && EnvironmentMoves(s, s')
    ensures Inv(ids, s')
  {
  }

  lemma RepairMovesKeepInv(ids: set<string>, s: Sys, s': Sys)
    requires Inv(ids, s) && RepairMoves(s, s')
    ensures Inv(ids, s')
  {
    var w, w' := s.world, s'.world;
    match s.mode.phase
    case TakeDown(c, at, pending, handled, listed) =>
      var p :| RemovalStep(c, w, at, w', p) && s'.mode == Repair(TakeDownNext(c, p, pending, handled, listed));
      RemovalKeepsCover(c, w, at, w', p);
      RemovalTouchesItsChart(c, w, at, w', p);
      ShrinkKeepsWriteAhead(ids, w, w');
    case StopOrphan(todo, _) =>
      if w' != w {
        MachinesShrink(w, w', todo[0]);
        ShrinkKeepsWriteAhead(ids, w, w');
      }
    case RmOrphan(todo, _) =>
      MachinesShrink(w, w', todo[0]);
      ShrinkKeepsWriteAhead(ids, w, w');
    case _ =>
  }

  lemma NextKeepsInv(ids: set<string>, s: Sys, s': Sys)
    requires PrefixFree(ids) && Inv(ids, s) && Next(ids, s, s')
    ensures Inv(ids, s')
  {
    if EnvironmentMoves(s, s') {
      EnvironmentKeepsInv(ids, s, s');
    } else if Crashes(s, s') {
    } else if RepairMoves(s, s') {
      RepairMovesKeepInv(ids, s, s');
    } else if c :| OpMoves(s, s', c) {
      OpMovesKeepInv(ids, s, s', c);
    } else {
      var c :| OpArrives(ids, s, s', c);
      OpArrivesKeepsInv(ids, s, s', c);
    }
  }

  lemma InitHasInv(ids: set<string>, s: Sys)
    requires Init(s)
    ensures Inv(ids, s)
  {
  }

  lemma {:induction false} RunKeepsInv(ids: set<string>, run: seq<Sys>, k: nat)
    requires PrefixFree(ids) && IsRun(ids, run) && Inv(ids, run[0]) && k < |run|
    ensures Inv(ids, run[k])
  {
    if k > 0 {
      RunKeepsInv(ids, run, k - 1);
      assert Next(ids, run[k - 1], run[k - 1 + 1]);
      NextKeepsInv(ids, run[k - 1], run[k]);
    }
  }

  // ---- Main results ----

  /** Write-ahead intent over every run: crashes, restarts, failed commands, guests
      that vanish, and operations on different charts interleaved in any order. */
  lemma WriteAheadAlways(ids: set<string>, run: seq<Sys>, k: nat)
    requires PrefixFree(ids) && IsRun(ids, run) && Init(run[0]) && k < |run|
    ensures WriteAhead(ids, run[k].world)
  {
    InitHasInv(ids, run[0]);
    RunKeepsInv(ids, run, k);
  }

  /** A start is recorded only when nothing of the chart is left on the host, and a
      stop only when nothing of it is left either. */
  lemma MarksMeanQuiet(ids: set<string>, run: seq<Sys>, k: nat, c: string)
    requires PrefixFree(ids) && IsRun(ids, run) && Init(run[0]) && k + 1 < |run|
    requires OpMoves(run[k], run[k + 1], c)
    requires run[k].ops[c].pc == MarkStarting || run[k].ops[c].pc == MarkStopped
    ensures Quiet(run[k].world, c)
  {
    InitHasInv(ids, run[0]);
    RunKeepsInv(ids, run, k);
  }

  // ---- The hypothesis on IDs is exact ----

  ghost predicate SafeFor(ids: set<string>) {
    forall run: seq<Sys>, k: nat :: IsRun(ids, run) && Init(run[0]) && k < |run| ==> WriteAhead(ids, run[k].world)
  }

  /** An empty host on which chart c boots one layer. */
  function OneBoot(c: string, layer: string): seq<Sys> {
    var w0 := World(map[], map[]);
    var w1 := World(map[c := STARTING], map[]);
    var w2 := World(map[c := STARTING], map[MachineName(c, layer) := RUNNING]);
    [ Sys(w0, Repair(LoadRows), map[]),
      Sys(w0, Repair(LoadMachines({})), map[]),
      Sys(w0, Repair(Charts({}, {}, [])), map[]),
      Sys(w0, Repair(StopOrphan([], {})), map[]),
      Sys(w0, Up, map[]),
      Sys(w0, Up, map[c := Op([layer], Clear(Listing))]),
      Sys(w0, Up, map[c := Op([layer], Clear(Stopping([])))]),
      Sys(w0, Up, map[c := Op([layer], Preflight)]),
      Sys(w0, Up, map[c := Op([layer], MarkStarting)]),
      Sys(w1, Up, map[c := Op([layer], Boot(0))]),
      Sys(w2, Up, map[c := Op([layer], Boot(1))]) ]
  }

  lemma OneBootIsServed(ids: set<string>, c: string, layer: string)
    requires c in ids
    ensures forall i :: 0 <= i < 5 ==> Next(ids, OneBoot(c, layer)[i], OneBoot(c, layer)[i + 1])
  {
    var run := OneBoot(c, layer);
    assert NonStopped(run[0].world.rows) == {};
    assert RepairMoves(run[0], run[1]);
    assert RepairMoves(run[1], run[2]);
    assert RepairMoves(run[2], run[3]);
    assert RepairMoves(run[3], run[4]);
    assert OpArrives(ids, run[4], run[5], c);
  }

  lemma OneBootMoves(ids: set<string>, c: string, layer: string)
    ensures forall i :: 5 <= i < 10 ==> Next(ids, OneBoot(c, layer)[i], OneBoot(c, layer)[i + 1])
  {
    var run := OneBoot(c, layer);
    assert RemovalStep(c, run[5].world, Listing, run[6].world, More(Stopping([])));
    assert OpMoves(run[5], run[6], c);
    assert RemovalStep(c, run[6].world, Stopping([]), run[7].world, Cleared);
    assert OpMoves(run[6], run[7], c);
    assert OpMoves(run[7], run[8], c);
    assert OpMoves(run[8], run[9], c);
    assert OpMoves(run[9], run[10], c);
  }

  lemma OneBootIsARun(ids: set<string>, c: string, layer: string)
    requires c in ids
    ensures IsRun(ids, OneBoot(c, layer)) && Init(OneBoot(c, layer)[0])
  {
    hide Next;
    OneBootIsServed(ids, c, layer);
    OneBootMoves(ids, c, layer);
  }

  /** The runner keeps write-ahead intent on every run exactly for those sets of
      chart IDs in which no two collide. */
  lemma SafeExactlyWhenPrefixFree(ids: set<string>)
    ensures SafeFor(ids) <==> PrefixFree(ids)
  {
    if PrefixFree(ids) {
      forall run: seq<Sys>, k: nat | IsRun(ids, run) && Init(run[0]) && k < |run|
        ensures WriteAhead(ids, run[k].world)
      {
        WriteAheadAlways(ids, run, k);
      }
    } else {
      var c, d :| c in ids && d in ids && c != d && Collide(c, d);
      CollideExactly(c, d);
      var layer :| Owns(d, MachineName(c, layer)) || Owns(c, MachineName(d, layer));
      var (a, b) := if Owns(d, MachineName(c, layer)) then (c, d) else (d, c);
      var run := OneBoot(a, layer);
      OneBootIsARun(ids, a, layer);
      assert Owns(b, MachineName(a, layer)) && !Live(run[10].world, b);
      assert !WriteAhead(ids, run[10].world);
    }
  }
}
