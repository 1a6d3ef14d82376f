/// The orchestrator as it is written (internal/engine/orchestrator.go,
/// internal/engine/machines.go, internal/engine/reconcile.go): methods that issue
/// commands and writes one at a time.
///
/// `rows` and `machines` are the store and kraft. Between any two commands the rest
/// of the system runs (`Pause`): guests exit and operations on other charts move.
/// The ghost field `run` records every state the system has been in, and each method
/// keeps it a run of the transition system of `Lifecycle`: what that module proves
/// about runs therefore holds of this code, and a crash is a run that stops short.
module Orchestrator {
  import opened Names
  import opened Lifecycle
  import P = Preflight

  /** How far the boot loops got, and what stopped them. */
  datatype Halt = Through | Cancelled | LinkUndeclared(link: string) | RunFailed

  datatype Outcome = Ok | ChartRunning | NotStarted | Aborted(cause: Halt) | NotMarked

  /** The failures that stopped the boot loops: an undeclared link is none. */
  function Cost(h: Halt): nat {
    if h.Cancelled? || h.RunFailed? then 1 else 0
  }

  datatype Machine = Machine(name: string, status: string)

  datatype Listed = Machines(all: seq<Machine>) | ListFailed

  function NamesOf(ms: seq<Machine>): seq<string> {
    seq(|ms|, i requires 0 <= i < |ms| => ms[i].name)
  }

  /** The layer IDs of these entries, in order. */
  function Ids(chart: P.Chart, entries: seq<P.Entry>): seq<string>
    requires forall e :: e in entries ==> P.InChart(chart, e)
  {
    seq(|entries|, i requires 0 <= i < |entries| => P.LayerOf(chart, entries[i]).id)
  }

  /** Since then, kraft was asked to run these entries of the chart, one command each, in order. */
  ghost predicate Issued(was: seq<P.Command>, now: seq<P.Command>, b: P.Boot, entries: seq<P.Entry>) {
    was <= now && P.Prepared(b, now[|was|..], entries)
  }

  lemma NothingIssued(was: seq<P.Command>, b: P.Boot)
    ensures Issued(was, was, b, [])
  {
  }

  lemma OneMoreIssued(was: seq<P.Command>, now: seq<P.Command>, b: P.Boot, entries: seq<P.Entry>, e: P.Entry,
                      c: P.Command)
    requires Issued(was, now, b, entries) && P.SoftDeclared(b.chart, e) && P.Runs(b, e, c)
    ensures Issued(was, now + [c], b, entries + [e])
  {
    hide P.SoftDeclared, P.Runs;
    assert (now + [c])[|was|..] == now[|was|..] + [c];
  }

  lemma IssuedInTurn(was: seq<P.Command>, mid: seq<P.Command>, now: seq<P.Command>, b: P.Boot,
                     first: seq<P.Entry>, second: seq<P.Entry>)
    requires Issued(was, mid, b, first) && Issued(mid, now, b, second)
    ensures Issued(was, now, b, first + second)
  {
    hide P.SoftDeclared, P.Runs;
    assert now[|was|..] == mid[|was|..] + now[|mid|..];
  }

  lemma EachIsDeclared(was: seq<P.Command>, now: seq<P.Command>, b: P.Boot, entries: seq<P.Entry>)
    requires Issued(was, now, b, entries) && P.AllEntries(b.chart, entries)
    ensures P.AllSoftDeclared(b.chart)
  {
    P.AllDeclared(b, now[|was|..], entries);
  }

  /** Some way into these entries, kraft was not asked to run any more. */
  ghost predicate IssuedUpTo(was: seq<P.Command>, now: seq<P.Command>, b: P.Boot, entries: seq<P.Entry>) {
    exists k :: 0 <= k <= |entries| && Issued(was, now, b, entries[..k])
  }

  lemma IssuedThenUpTo(was: seq<P.Command>, mid: seq<P.Command>, now: seq<P.Command>, b: P.Boot,
                       first: seq<P.Entry>, second: seq<P.Entry>, rest: seq<P.Entry>)
    requires Issued(was, mid, b, first) && IssuedUpTo(mid, now, b, second)
    ensures IssuedUpTo(was, now, b, first + second + rest)
  {
    hide Issued;
    var k :| 0 <= k <= |second| && Issued(mid, now, b, second[..k]);
    IssuedInTurn(was, mid, now, b, first, second[..k]);
    assert (first + second + rest)[..|first| + k] == first + second[..k];
  }

  /** Since then kraft was asked to run these entries, one each, in order, each with its own
      image and in reach of the broker. */
  ghost predicate AsSetUp(chart: P.Chart, setup: P.Setup, imageMap: map<string, string>, entries: seq<P.Entry>,
                          was: seq<P.Command>, now: seq<P.Command>) {
    && |now| == |was| + |entries|
    && forall i :: 0 <= i < |entries| ==> P.BootsAsSetUp(chart, setup, imageMap, entries[i], now[|was| + i])
  }

  lemma IssuedAsSetUp(was: seq<P.Command>, now: seq<P.Command>, b: P.Boot, setup: P.Setup, entries: seq<P.Entry>)
    requires Issued(was, now, b, entries) && P.FitsSetup(b, b.chart, setup, b.fs)
    ensures AsSetUp(b.chart, setup, b.imageMap, entries, was, now)
  {
    hide P.Runs, P.BootsAsSetUp, P.SoftDeclared, P.FitsSetup;
    forall i | 0 <= i < |entries|
      ensures P.BootsAsSetUp(b.chart, setup, b.imageMap, entries[i], now[|was| + i])
    {
      assert now[|was|..][i] == now[|was| + i];
      P.RunsAsSetUp(b, setup, entries[i], now[|was| + i]);
    }
  }

  /** How a start ends: what it leaves of the row, of the machines and of the commands, and
      with how many faults. No outcome but Ok and NotMarked leaves a row Started, and after
      these every layer was run without a fault. */
  ghost predicate Ends(r: Outcome, b: P.Boot, entries: seq<P.Entry>, was: World, w: World,
                       log: seq<P.Command>, log': seq<P.Command>, faults: int) {
    var id := b.chart.id;
    match r
    case Ok =>
      faults == 0 && id in w.rows && w.rows[id] == STARTED && Issued(log, log', b, entries)
    case NotMarked =>
      // only the last write failed, and it may have taken effect
      && faults == 1 && id in w.rows && (w.rows[id] == STARTING || w.rows[id] == STARTED)
      && Issued(log, log', b, entries)
    case ChartRunning =>
      log' == log && Kept(was, w, id) && OwnRuns(w, id)
    case NotStarted =>
      log' == log && (Kept(was, w, id) || (id in w.rows && w.rows[id] == STARTING && faults > 0))
    case Aborted(cause) =>
      // taken down, unless that failed as well
      && IssuedUpTo(log, log', b, entries)
      && !cause.Through? && (cause.LinkUndeclared? ==> P.UndeclaredIn(b.chart, cause.link))
      && id in w.rows && faults >= Cost(cause)
      && (|| (w.rows[id] == STOPPED && Quiet(w, id))
          || (faults > Cost(cause) && (w.rows[id] == STARTING || w.rows[id] == STOPPING)))
  }

  lemma NothingEnds(b: P.Boot, entries: seq<P.Entry>, was: World, w: World, log: seq<P.Command>)
    requires Kept(was, w, b.chart.id)
    ensures forall faults :: Ends(NotStarted, b, entries, was, w, log, log, faults)
    ensures OwnRuns(w, b.chart.id) ==> forall faults :: Ends(ChartRunning, b, entries, was, w, log, log, faults)
  {
  }

  lemma EndsSince(r: Outcome, b: P.Boot, entries: seq<P.Entry>, u: World, v: World, w: World,
                  log: seq<P.Command>, log': seq<P.Command>, faults: int)
    requires Kept(u, v, b.chart.id) && Ends(r, b, entries, v, w, log, log', faults)
    ensures Ends(r, b, entries, u, w, log, log', faults)
  {
    Onward(u, v, w, b.chart.id);
    hide Kept, Issued, IssuedUpTo, Quiet, OwnRuns;
  }

  /** What the outcome says of the chart and of the commands. */
  lemma Started(r: Outcome, b: P.Boot, chart: P.Chart, setup: P.Setup, later: P.Fs, entries: seq<P.Entry>,
                was: World, w: World, log: seq<P.Command>, log': seq<P.Command>, faults: int)
    requires P.FitsSetup(b, chart, setup, later) && P.AllEntries(chart, entries)
    requires Ends(r, b, entries, was, w, log, log', faults)
    ensures r.Ok? ==> faults == 0
    ensures r.NotMarked? ==> faults > 0
    ensures r.Aborted? && faults == 0 ==> !P.AllSoftDeclared(chart)
    ensures r.Ok? || r.NotMarked? ==>
      P.AllSoftDeclared(chart) && AsSetUp(chart, setup, b.imageMap, entries, log, log')
  {
    hide Issued, IssuedUpTo, Quiet, OwnRuns, Kept;
    assert b.chart == chart && P.FitsSetup(b, b.chart, setup, b.fs);
    hide P.FitsSetup, P.AllSoftDeclared, AsSetUp, P.UndeclaredIn, P.BootsAsSetUp, P.AllEntries;
    if r.Ok? || r.NotMarked? {
      EachIsDeclared(log, log', b, entries);
      IssuedAsSetUp(log, log', b, setup, entries);
    } else if r.Aborted? && r.cause.LinkUndeclared? {
      UndeclaredIsSoft(b.chart, r.cause.link);
    }
  }

  /** The system was in this world at some time from state `from` on. */
  ghost predicate SeenIn(run: seq<Sys>, from: nat, w: World) {
    exists k :: from <= k < |run| && run[k].world == w
  }

  lemma StillSeen(before: seq<Sys>, run: seq<Sys>, from: nat, w: World)
    requires before <= run && SeenIn(before, from, w)
    ensures SeenIn(run, from, w)
  {
  }

  lemma SeenSince(run: seq<Sys>, from: nat, later: nat, w: World)
    requires from <= later && SeenIn(run, later, w)
    ensures SeenIn(run, from, w)
  {
  }

  lemma UndeclaredIsSoft(chart: P.Chart, link: string)
    requires P.UndeclaredIn(chart, link)
    ensures !P.AllSoftDeclared(chart)
  {
    hide P.LayerOf;
    var e :| P.InChart(chart, e) && link in P.LayerOf(chart, e).links.soft;
    assert !P.SoftDeclared(chart, e);
  }

  lemma MachineIsTheLayers(b: P.Boot, e: P.Entry, c: P.Command)
    requires P.Runs(b, e, c)
    ensures P.InChart(b.chart, e) && c.machine == MachineName(b.chart.id, P.LayerOf(b.chart, e).id)
  {
  }

  lemma InTurn(chart: P.Chart, ps: seq<P.Entry>, ts: seq<P.Entry>, es: seq<P.Entry>)
    requires forall e :: e in ps + ts + es ==> P.InChart(chart, e)
    ensures forall e :: e in ps || e in ts || e in es ==> P.InChart(chart, e)
    ensures var ids := Ids(chart, ps + ts + es);
            && |ids| == |ps| + |ts| + |es|
            && ids[0..|ps|] == Ids(chart, ps)
            && ids[|ps|..|ps| + |ts|] == Ids(chart, ts)
            && ids[|ps| + |ts|..|ps| + |ts| + |es|] == Ids(chart, es)
  {
    assert forall e :: e in ps || e in ts || e in es ==> e in ps + ts + es;
    hide P.InChart, P.JobOf;
  }

  // ---- Where a removal loop is called from ----

  datatype Caller =
    | InClear(c: string, op: Op)
    | InTeardown(c: string, op: Op)
    | InTakeDown(c: string, pending: set<string>, handled: set<string>, listed: seq<string>)
    | InOrphans(c: string, handled: set<string>)

  ghost predicate Serving(s: Sys, c: string, op: Op) {
    s.mode.Up? && At(s, c) == Running(op)
  }

  ghost predicate Repairing(s: Sys, phase: Phase) {
    s.ops == map[] && s.mode == Repair(phase)
  }

  /** The system is at this point of the caller's removal loop. */
  ghost predicate Here(s: Sys, who: Caller, at: Removal) {
    match who
    case InClear(c, op) => Serving(s, c, op.(pc := Clear(at)))
    case InTeardown(c, op) => Serving(s, c, op.(pc := Teardown(at)))
    case InTakeDown(c, p, h, l) => Repairing(s, TakeDown(c, at, p, h, l))
    case InOrphans(_, h) =>
      match at
      case Listing => false
      case Stopping(todo) => Repairing(s, StopOrphan(todo, h))
      case Removing(todo) => Repairing(s, RmOrphan(todo, h))
  }

  /** Where the caller is after the loop made this progress from `at`. */
  ghost predicate Left(s: Sys, who: Caller, at: Removal, p: Progress) {
    match p
    case More(r) => Here(s, who, r)
    case Cleared => (
      match who
      case InClear(c, op) => Serving(s, c, op.(pc := Preflight))
      case InTeardown(c, op) => Serving(s, c, op.(pc := MarkStopped))
      case InTakeDown(c, p, h, l) => Repairing(s, MarkDown(c, p, h, l))
      case InOrphans(_, _) => false)
    case GaveUp => (
      match who
      case InClear(c, _) => s.mode.Up? && At(s, c) == Returned
      case InTeardown(c, _) => s.mode.Up? && At(s, c) == Returned
      case InTakeDown(_, p, h, l) => Repairing(s, Charts(p, h, l))
      case InOrphans(_, h) => !at.Listing? && at.todo != [] && Repairing(s, StopOrphan(at.todo[1..], h)))
  }

  /** What the caller may rely on besides its own place. */
  ghost predicate Sound(ids: set<string>, s: Sys) {
    if s.mode.Up? then
      PrefixFree(ids) && Inv(ids, s)
    else
      s.ops == map[] && RepairOk(s.world, s.mode.phase)
  }

  ghost predicate Allowed(who: Caller, w: World, at: Removal, p: Progress) {
    match who
    case InClear(_, _) => at.Listing? && p.More? && p.removal.Stopping? ==> NoneRunning(w, p.removal.todo)
    case InOrphans(_, h) => !at.Listing? && at.todo != [] && IsLayer(at.todo[0]) && !OwnedByHandled(at.todo[0], h)
    case _ => true
  }

  function Served(s: Sys, w: World, c: string, next: MaybeOp): Sys {
    Sys(w, Up, if next.Running? then s.ops[c := next.op] else s.ops - {c})
  }

  ghost function LeftBy(s: Sys, w: World, who: Caller, at: Removal, p: Progress): Sys
    requires who.InOrphans? ==> !at.Listing? && at.todo != []
  {
    match who
    case InClear(c, op) =>
      Served(s, w, c, match p case More(r) => Running(op.(pc := Clear(r)))
                              case Cleared => Running(op.(pc := Preflight))
                              case GaveUp => Returned)
    case InTeardown(c, op) =>
      Served(s, w, c, match p case More(r) => Running(op.(pc := Teardown(r)))
                              case Cleared => Running(op.(pc := MarkStopped))
                              case GaveUp => Returned)
    case InTakeDown(c, pending, h, l) => Sys(w, Repair(TakeDownNext(c, p, pending, h, l)), s.ops)
    case InOrphans(_, h) =>
      Sys(w, Repair(match p case More(Removing(t)) => RmOrphan(t, h)
                            case _ => StopOrphan(at.todo[1..], h)), s.ops)
  }

  lemma ServedMoves(ids: set<string>, s: Sys, w: World, c: string, next: MaybeOp)
    requires s.mode.Up? && c in s.ops && Sound(ids, s)
    requires OpStep(c, s.world, s.ops[c], w, next)
    ensures var s' := Served(s, w, c, next);
            Next(ids, s, s') && Sound(ids, s') && At(s', c) == next
  {
    var s' := Served(s, w, c, next);
    assert s'.ops - {c} == s.ops - {c};
    assert OpMoves(s, s', c);
    NextKeepsInv(ids, s, s');
  }

  lemma RepairKeepsOk(w: World, phase: Phase, w': World, next: Mode)
    requires RepairStep(w, phase, w', next) && RepairOk(w, phase) && next.Repair?
    ensures RepairOk(w', next.phase)
  {
    if phase.TakeDown? {
      var p :| RemovalStep(phase.c, w, phase.removal, w', p) &&
        next == Repair(TakeDownNext(phase.c, p, phase.pending, phase.handled, phase.listed));
      RemovalKeepsCover(phase.c, w, phase.removal, w', p);
    }
  }

  lemma RemovalIsNext(ids: set<string>, s: Sys, w: World, who: Caller, at: Removal, p: Progress)
    requires Here(s, who, at) && Sound(ids, s)
    requires RemovalStep(who.c, s.world, at, w, p) && Allowed(who, s.world, at, p)
    ensures var s' := LeftBy(s, w, who, at, p);
            Next(ids, s, s') && Sound(ids, s') && Left(s', who, at, p) && s'.world == w
  {
    var s' := LeftBy(s, w, who, at, p);
    match who
    case InClear(c, op) =>
      assert ClearNext(s.world, s.ops[c], at, p, At(s', c));
      ServedMoves(ids, s, w, c, At(s', c));
    case InTeardown(c, op) =>
      assert TeardownNext(s.ops[c], p, At(s', c));
      ServedMoves(ids, s, w, c, At(s', c));
    case InTakeDown(_, _, _, _) =>
      assert RepairMoves(s, s');
      RepairKeepsOk(s.world, s.mode.phase, w, s'.mode);
    case InOrphans(_, _) =>
      assert RepairMoves(s, s');
      RepairKeepsOk(s.world, s.mode.phase, w, s'.mode);
  }

  lemma LayerRemoval(u: World, w: World, w': World, n: string)
    requires EnvironmentRan(u, w) && OnlyMachine(w, w', n) && IsLayer(n) && (n in w'.machines ==> n in w.machines)
    ensures EnvironmentRan(u, w')
    ensures forall c :: Kept(u, w, c) ==> Kept(u, w', c)
  {
    MachinesShrink(w, w', n);
    forall m | !IsLayer(m)
      ensures m in w.machines <==> m in w'.machines
      ensures m in w.machines ==> w'.machines[m] == w.machines[m]
    {
      assert m in w.machines <==> m in w.machines - {n};
      assert m in w'.machines <==> m in w'.machines - {n};
      if m in w.machines {
        assert (w.machines - {n})[m] == (w'.machines - {n})[m];
      }
    }
  }

  /** Once the removal loop is through, nothing of the chart is left. */
  lemma ClearedIsQuiet(ids: set<string>, s: Sys, who: Caller, at: Removal)
    requires Sound(ids, s) && Left(s, who, at, Cleared)
    ensures Quiet(s.world, who.c)
  {
  }

  /** The four state writes of an operation and where each leads. */
  ghost predicate Marks(op: Op, st: ChartState, next: MaybeOp) {
    match op.pc
    case MarkStarting => st == STARTING && next == Running(op.(pc := Boot(0)))
    case MarkStarted => st == STARTED && next == Returned
    case MarkStopping => st == STOPPING && next == Running(op.(pc := Teardown(Listing)))
    case MarkStopped => st == STOPPED && next == Returned
    case _ => false
  }

  // ---- What the rest of the system may do meanwhile ----

  /** A step of anything but the operation on chart c. */
  ghost predicate OthersMove(ids: set<string>, s: Sys, s': Sys, c: string) {
    || EnvironmentMoves(s, s')
    || (exists d :: d != c && OpMoves(s, s', d))
    || (exists d :: d != c && OpArrives(ids, s, s', d))
  }

  ghost predicate OthersRan(ids: set<string>, run: seq<Sys>, from: nat, c: string) {
    forall i :: from <= i < |run| - 1 ==> OthersMove(ids, run[i], run[i + 1], c)
  }

  lemma OthersMoveKeeps(ids: set<string>, s: Sys, s': Sys, c: string)
    requires c in ids && PrefixFree(ids) && Inv(ids, s) && s.mode.Up? && OthersMove(ids, s, s', c)
    ensures Inv(ids, s') && s'.mode.Up?
    ensures At(s', c) == At(s, c) && Kept(s.world, s'.world, c)
  {
    assert Next(ids, s, s');
    NextKeepsInv(ids, s, s');
    hide Next;
    if EnvironmentMoves(s, s') {
    } else if d :| d != c && OpMoves(s, s', d) {
      assert d in ids;
      hide Inv, OpMoves;
      OperationsAreIsolated(ids, s, s', d, c);
    } else {
      var d :| d != c && OpArrives(ids, s, s', d);
      assert c in s.ops <==> c in s'.ops - {d};
    }
  }

  lemma {:induction false} OthersKeep(ids: set<string>, run: seq<Sys>, from: nat, to: nat, c: string)
    requires from <= to < |run| && OthersRan(ids, run, from, c)
    requires c in ids && PrefixFree(ids) && Inv(ids, run[from]) && run[from].mode.Up?
    ensures Inv(ids, run[to]) && run[to].mode.Up?
    ensures At(run[to], c) == At(run[from], c) && Kept(run[from].world, run[to].world, c)
  {
    hide Inv, OthersMove, PrefixFree;
    if from < to {
      OthersKeep(ids, run, from, to - 1, c);
      assert OthersMove(ids, run[to - 1], run[to - 1 + 1], c);
      OthersMoveKeeps(ids, run[to - 1], run[to], c);
    }
  }

  ghost predicate EnvironmentOnly(run: seq<Sys>, from: nat) {
    forall i :: from <= i < |run| - 1 ==> EnvironmentMoves(run[i], run[i + 1])
  }

  lemma {:induction false} EnvironmentKeeps(run: seq<Sys>, from: nat, to: nat)
    requires from <= to < |run| && EnvironmentOnly(run, from)
    ensures run[to].mode == run[from].mode && run[to].ops == run[from].ops
    ensures EnvironmentRan(run[from].world, run[to].world)
  {
    if from < to {
      EnvironmentKeeps(run, from, to - 1);
      assert EnvironmentMoves(run[to - 1], run[to - 1 + 1]);
    }
  }

  lemma EnvironmentKeepsRepair(w: World, w': World, phase: Phase)
    requires RepairOk(w, phase) && EnvironmentRan(w, w')
    ensures RepairOk(w', phase)
  {
  }

  /** What one pass of Reconcile may at most do to the world. */
  ghost predicate OnlyShrank(w: World, w': World) {
    && (forall n :: n in w'.machines ==> n in w.machines)
    && ForeignKept(w, w')
    && w'.rows.Keys == w.rows.Keys
    && (forall c :: c in w.rows && w'.rows[c] != w.rows[c] ==> w'.rows[c] == STOPPED)
  }

  lemma NamesAfter(ms: seq<Machine>, i: nat)
    requires i < |ms|
    ensures NamesOf(ms)[i..] != [] && NamesOf(ms)[i..][0] == ms[i].name && ms[i].name in NamesOf(ms)
    ensures NamesOf(ms)[i..][1..] == NamesOf(ms)[i + 1..]
  {
  }

  /** The non-stopped charts a repair still has to get to, and those it has been at:
      each of these is down, or its row still asks for repair. */
  ghost predicate LeftToRepair(start: World, w: World, pending: set<string>, handled: set<string>) {
    && NonStopped(w.rows) <= NonStopped(start.rows) == pending + handled
    && pending !! handled
    && (forall c :: c in pending ==> Live(w, c))
    && (forall c :: c in handled ==> Live(w, c) || Quiet(w, c))
    && OnlyShrank(start, w)
  }

  /** A repair whose commands all succeeded so far left nothing of the charts it handled. */
  ghost predicate AllDown(w: World, handled: set<string>) {
    forall c :: c in handled ==> c in w.rows && w.rows[c] == STOPPED && Quiet(w, c)
  }

  lemma StillLeft(start: World, w: World, w': World, pending: set<string>, handled: set<string>)
    requires LeftToRepair(start, w, pending, handled) && EnvironmentRan(w, w')
    ensures LeftToRepair(start, w', pending, handled) && forall c :: c in pending ==> Live(w', c)
    ensures AllDown(w, handled) ==> AllDown(w', handled)
  {
  }

  lemma ChartGivenUp(start: World, w: World, w': World, c: string, pending: set<string>, handled: set<string>)
    requires LeftToRepair(start, w, pending, handled) && c in pending && EnvironmentRan(w, w')
    ensures LeftToRepair(start, w', pending - {c}, handled + {c})
  {
  }

  lemma ChartRepaired(start: World, w: World, w': World, c: string, pending: set<string>, handled: set<string>)
    requires LeftToRepair(start, w, pending, handled) && c in pending && Quiet(w, c)
    requires EnvironmentRan(w, World(w.rows, w'.machines))
    requires w'.rows == w.rows || w'.rows == w.rows[c := STOPPED]
    ensures LeftToRepair(start, w', pending - {c}, handled + {c})
    ensures w'.rows != w.rows && AllDown(w, handled) ==> AllDown(w', handled + {c})
  {
  }

  lemma NothingHandled(w: World)
    ensures AllDown(w, {})
  {
  }

  lemma LeftIsPending(start: World, w: World, pending: set<string>, handled: set<string>)
    requires LeftToRepair(start, w, pending, handled)
    ensures NonStopped(w.rows) - pending <= handled
  {
  }

  /** A repaired chart is one more left over at most. */
  lemma OneMoreLeft(was: set<string>, now: set<string>, pending: set<string>, c: string)
    requires now <= was && c in pending
    ensures |now - (pending - {c})| <= |was - pending| + 1
    ensures c !in now ==> |now - (pending - {c})| <= |was - pending|
  {
    if c in now {
      assert now - (pending - {c}) == (now - pending) + {c};
    } else {
      assert now - (pending - {c}) == now - pending;
    }
    SubsetIsSmaller(now - pending, was - pending);
  }

  ghost predicate AskedFor(w: World, n: string) {
    exists c :: Owns(c, n) && Live(w, c)
  }

  /** After the chart loop a machine of a handled chart is one whose row still asks for
      repair; without failures there is none, and no row asks any more. */
  lemma ChartsRepaired(start: World, w: World, handled: set<string>)
    requires LeftToRepair(start, w, {}, handled)
    ensures OnlyShrank(start, w)
    ensures forall n :: n in w.machines && OwnedByHandled(n, handled) ==> AskedFor(w, n)
    ensures AllDown(w, handled) ==>
      && (forall n :: n in w.machines ==> !OwnedByHandled(n, handled))
      && (forall c :: c in w.rows ==> w.rows[c] == STOPPED)
  {
    forall n | n in w.machines && OwnedByHandled(n, handled)
      ensures AskedFor(w, n)
    {
      var c :| c in handled && Owns(c, n);
      assert Live(w, c);
    }
    if AllDown(w, handled) {
      forall c | c in w.rows
        ensures w.rows[c] == STOPPED
      {
        assert c in NonStopped(w.rows) ==> c in handled;
      }
    }
  }

  ghost function LayersOf(w: World): set<string> {
    set n | n in w.machines && IsLayer(n)
  }

  /** What is left to repair never grows from one Reconcile to the next. */
  lemma RepairNeverGrows(w: World, w': World)
    requires OnlyShrank(w, w')
    ensures LayersOf(w') <= LayersOf(w) && NonStopped(w'.rows) <= NonStopped(w.rows)
    ensures |LayersOf(w')| + |NonStopped(w'.rows)| <= |LayersOf(w)| + |NonStopped(w.rows)|
  {
    assert NonStopped(w'.rows) <= NonStopped(w.rows) by {
      forall c | c in NonStopped(w'.rows)
        ensures c in NonStopped(w.rows)
      {
        assert c in w'.rows.Keys;
      }
    }
    SubsetIsSmaller(LayersOf(w'), LayersOf(w));
    SubsetIsSmaller(NonStopped(w'.rows), NonStopped(w.rows));
  }

  /** A host without any machine of the runner meets the invariant, whatever it was before. */
  lemma CleanHostIsSound(ids: set<string>, w: World)
    requires PrefixFree(ids) && forall n :: n in w.machines ==> !IsLayer(n)
    ensures Sound(ids, Sys(w, Up, map[]))
  {
  }

  lemma StillLogged(log: seq<string>, log': seq<string>, from: nat)
    requires log <= log' && from <= |log|
    ensures forall n :: n in log[from..] ==> n in log'[from..]
    ensures forall n :: n in log'[|log|..] ==> n in log'[from..]
  {
    forall n | n in log[from..] || n in log'[|log|..]
      ensures n in log'[from..]
    {
      assert log'[from..] == log[from..] + log'[|log|..];
    }
  }

  lemma LoggedBefore(log: seq<string>, mid: nat, from: nat)
    requires from <= mid <= |log|
    ensures forall n :: n in log[mid..] ==> n in log[from..]
  {
    assert log[from..] == log[from..mid] + log[mid..];
  }

  lemma {:induction false} SubsetIsSmaller<T>(a: set<T>, b: set<T>)
    requires a <= b
    ensures |a| <= |b|
  {
    if a != {} {
      var x :| x in a;
      SubsetIsSmaller(a - {x}, b - {x});
    }
  }

  lemma NamesCover(ms: seq<Machine>, machines: map<string, string>)
    requires forall n, st :: Machine(n, st) in ms <==> n in machines && machines[n] == st
    ensures forall n :: n in NamesOf(ms) <==> n in machines
  {
    forall n
      ensures n in NamesOf(ms) <==> n in machines
    {
      if n in NamesOf(ms) {
        var i :| 0 <= i < |ms| && ms[i].name == n;
        assert Machine(n, ms[i].status) in ms;
      }
      if n in machines {
        assert Machine(n, machines[n]) in ms;
        var i :| 0 <= i < |ms| && ms[i] == Machine(n, machines[n]);
        assert NamesOf(ms)[i] == n;
      }
    }
  }

  lemma Onward(u: World, v: World, w: World, c: string)
    ensures Kept(u, v, c) && Kept(v, w, c) ==> Kept(u, w, c)
    ensures EnvironmentRan(u, v) && EnvironmentRan(v, w) ==> EnvironmentRan(u, w)
  {
  }

  class Host {
    ghost const ids: set<string>

    var rows: map<string, ChartState>
    var machines: map<string, string>

    /** Every state the system has been in. */
    ghost var run: seq<Sys>

    // What the commands issued here reported: failures, names whose removal
    // ended in an error, and the machines kraft was asked to run.
    ghost var faults: nat
    ghost var unremoved: seq<string>
    ghost var issued: seq<P.Command>

    ghost function W(): World
      reads this
    {
      World(rows, machines)
    }

    ghost function Now(): Sys
      reads this
      requires |run| > 0
    {
      run[|run| - 1]
    }

    ghost predicate Valid()
      reads this
    {
      |run| > 0 && IsRun(ids, run) && Now().world == W() && Sound(ids, Now())
    }

    /** The removal of this machine has ended in an error, since the log was that long. */
    ghost predicate Failed(name: string, since: nat)
      reads this`unremoved
    {
      since <= |unremoved| && name in unremoved[since..]
    }

    constructor (ghost ids: set<string>, rows: map<string, ChartState>, machines: map<string, string>)
      ensures this.ids == ids && this.rows == rows && this.machines == machines
      ensures Valid() && Repairing(Now(), LoadRows) && |run| == 1
      ensures faults == 0 && unremoved == [] && issued == []
    {
      this.ids, this.rows, this.machines := ids, rows, machines;
      run := [Sys(World(rows, machines), Repair(LoadRows), map[])];
      faults, unremoved, issued := 0, [], [];
    }

    // ---- Commands: their result and effect are up to the world ----

    /** persistence/charts.go UpdateChartState. */
    method UpdateChartState(c: string, st: ChartState) returns (ok: bool)
      modifies this`rows, this`faults
      ensures Wrote(old(W()), W(), c, st, ok)
      ensures faults == old(faults) + (if ok then 0 else 1)
    {
      ok := *;
      var reached: bool := *;
      if ok || reached {
        rows := rows[c := st];
      }
      if !ok {
        faults := faults + 1;
      }
    }

    /** kraft stop: the guest exits, and one started with --rm is gone with it. */
    method KraftStop(name: string) returns (ok: bool)
      modifies this`machines, this`faults
      ensures StopRan(old(W()), W(), name, ok)
      ensures faults == old(faults) + (if ok then 0 else 1)
    {
      ok := *;
      var reached: bool := *;
      var vanishes: bool := *;
      if (ok || reached) && name in machines {
        machines := if vanishes then machines - {name} else machines[name := "exited"];
      }
      if !ok {
        faults := faults + 1;
      }
      assert (old(machines) - {name}) == machines - {name};
    }

    /** kraft rm. */
    method KraftRm(name: string) returns (ok: bool)
      modifies this`machines, this`faults
      ensures RmRan(old(W()), W(), name, ok)
      ensures faults == old(faults) + (if ok then 0 else 1)
    {
      ok := *;
      var reached: bool := *;
      if ok || reached {
        machines := machines - {name};
      }
      if !ok {
        faults := faults + 1;
      }
      assert (old(machines) - {name}) == machines - {name};
    }

    /** kraft run. */
    method KraftRun(c: P.Command) returns (ok: bool)
      modifies this`machines, this`faults, this`issued
      ensures BootRan(old(W()), W(), c.machine, ok)
      ensures faults == old(faults) + (if ok then 0 else 1)
      ensures issued == old(issued) + [c]
    {
      var name := c.machine;
      ok := *;
      var reached: bool := *;
      var status: string := *;
      if ok || reached {
        machines := machines[name := status];
      }
      if !ok {
        faults := faults + 1;
      }
      issued := issued + [c];
      assert (old(machines) - {name}) == machines - {name};
    }

    /** kraft ps -a. */
    method ListMachines() returns (r: Listed)
      modifies this`faults
      ensures r.Machines? ==> forall n, st :: Machine(n, st) in r.all <==> n in machines && machines[n] == st
      ensures faults == old(faults) + (if r.Machines? then 0 else 1)
    {
      var fails: bool := *;
      if fails {
        faults := faults + 1;
        return ListFailed;
      }
      var all: seq<Machine> := [];
      var left := machines.Keys;
      while left != {}
        invariant left <= machines.Keys
        invariant forall n, st :: Machine(n, st) in all <==> n in machines && n !in left && machines[n] == st
        decreases left
      {
        var n :| n in left;
        all := all + [Machine(n, machines[n])];
        left := left - {n};
      }
      r := Machines(all);
    }

    /** chartMachines: those of the listing that carry the chart's prefix. */
    method ChartMachines(c: string) returns (r: Listed)
      modifies this`faults
      ensures r.Machines? ==> ListsMachinesOf(W(), c, NamesOf(r.all))
      ensures r.Machines? ==> forall m :: m in r.all ==> m.name in machines && machines[m.name] == m.status
      ensures faults == old(faults) + (if r.Machines? then 0 else 1)
    {
      r := ListMachines();
      if r.ListFailed? {
        return;
      }
      var own: seq<Machine> := [];
      for i := 0 to |r.all|
        invariant forall m :: m in own <==> m in r.all[..i] && Owns(c, m.name)
      {
        if HasPrefix(r.all[i].name, ChartPrefix(c)) {
          own := own + [r.all[i]];
        }
      }
      assert r.all[..|r.all|] == r.all;
      forall n
        ensures n in NamesOf(own) <==> n in machines && Owns(c, n)
      {
        if n in NamesOf(own) {
          var i :| 0 <= i < |own| && own[i].name == n;
          assert own[i] in own;
          assert Machine(n, own[i].status) in r.all;
        }
        if n in machines && Owns(c, n) {
          assert Machine(n, machines[n]) in own;
          var i :| 0 <= i < |own| && own[i] == Machine(n, machines[n]);
          assert NamesOf(own)[i] == n;
        }
      }
      forall m | m in own
        ensures m.name in machines && machines[m.name] == m.status
      {
        assert Machine(m.name, m.status) in r.all;
      }
      r := Machines(own);
    }

    // ---- Scheduling ----

    /** The rest of the system takes any number of steps. The body takes none; callers
        see only the contract. */
    method Yield(ghost c: string)
      requires Valid()
      modifies this`rows, this`machines, this`run
      ensures IsRun(ids, run) && Now().world == W() && old(run) <= run
      ensures if old(Now()).mode.Up? then OthersRan(ids, run, |old(run)| - 1, c)
              else EnvironmentOnly(run, |old(run)| - 1)
    {
    }

    /** Yield, and what survives it. */
    method Pause(ghost c: string)
      requires Valid() && (Now().mode.Up? ==> c in ids)
      modifies this`rows, this`machines, this`run
      ensures Valid() && old(run) <= run
      ensures Now().mode == old(Now()).mode && At(Now(), c) == At(old(Now()), c)
      ensures old(Now()).ops == map[] && Now().mode.Repair? ==> Now().ops == map[]
      ensures Kept(old(W()), W(), c)
      ensures Now().mode.Repair? ==> EnvironmentRan(old(W()), W())
    {
      ghost var from := |run| - 1;
      Yield(c);
      assert old(run)[from] == run[from];
      if run[from].mode.Up? {
        OthersKeep(ids, run, from, |run| - 1, c);
      } else {
        EnvironmentKeeps(run, from, |run| - 1);
        EnvironmentKeepsRepair(run[from].world, W(), run[from].mode.phase);
      }
    }

    ghost method Record(next: Sys)
      requires IsRun(ids, run) && Next(ids, Now(), next) && next.world == W() && Sound(ids, next)
      modifies this`run
      ensures run == old(run) + [next] && Valid()
    {
      var before := run;
      run := run + [next];
      forall i | 0 <= i < |run| - 1
        ensures Next(ids, run[i], run[i + 1])
      {
        if i < |before| - 1 {
          assert Next(ids, before[i], before[i + 1]);
        }
      }
    }

    /** The operation on c has just taken this step. */
    ghost method Serve(c: string, next: MaybeOp)
      requires IsRun(ids, run) && Sound(ids, Now()) && Now().mode.Up? && c in Now().ops
      requires OpStep(c, Now().world, Now().ops[c], W(), next)
      modifies this`run
      ensures Valid() && old(run) < run
      ensures Now().mode.Up? && At(Now(), c) == next
    {
      ServedMoves(ids, Now(), W(), c, next);
      Record(Served(Now(), W(), c, next));
    }

    /** A removal loop has just taken this step. */
    ghost method Remove(who: Caller, at: Removal, p: Progress)
      requires IsRun(ids, run) && Sound(ids, Now()) && Here(Now(), who, at)
      requires RemovalStep(who.c, Now().world, at, W(), p) && Allowed(who, Now().world, at, p)
      modifies this`run
      ensures Valid() && old(run) < run && Left(Now(), who, at, p)
    {
      RemovalIsNext(ids, Now(), W(), who, at, p);
      Record(LeftBy(Now(), W(), who, at, p));
    }

    /** A call for chart c enters the system. */
    ghost method Begin(c: string, op: Op)
      requires Valid() && Now().mode.Up? && c in ids && c !in Now().ops
      requires op.pc == Clear(Listing) || op.pc == MarkStopping
      modifies this`run
      ensures Valid() && old(run) < run
      ensures Now().mode.Up? && At(Now(), c) == Running(op)
    {
      var next := Sys(W(), Up, Now().ops[c := op]);
      assert next.ops - {c} == Now().ops;
      assert OpArrives(ids, Now(), next, c);
      NextKeepsInv(ids, Now(), next);
      Record(next);
    }

    // ---- Removing machines ----

    method StopHead(name: string, ghost who: Caller, ghost todo: seq<string>) returns (ok: bool)
      requires Valid() && (Now().mode.Up? ==> who.c in ids)
      requires Here(Now(), who, Stopping(todo)) && todo != [] && todo[0] == name && IsLayer(name)
      requires who.InOrphans? ==> !OwnedByHandled(name, who.handled)
      modifies this`rows, this`machines, this`run, this`faults
      ensures Valid() && old(run) <= run
      ensures Left(Now(), who, Stopping(todo), if ok then More(Removing(todo)) else GaveUp)
      ensures Kept(old(W()), W(), who.c)
      ensures Now().mode.Repair? ==> EnvironmentRan(old(W()), W())
      ensures faults == old(faults) + (if ok then 0 else 1)
    {
      hide IsRun, Sound;
      Pause(who.c);
      ok := KraftStop(name);
      MachinesShrink(Now().world, W(), name);
      if Now().mode.Repair? {
        LayerRemoval(old(W()), Now().world, W(), name);
      }
      Remove(who, Stopping(todo), if ok then More(Removing(todo)) else GaveUp);
    }

    method RmHead(name: string, ghost who: Caller, ghost todo: seq<string>) returns (ok: bool)
      requires Valid() && (Now().mode.Up? ==> who.c in ids)
      requires Here(Now(), who, Removing(todo)) && todo != [] && todo[0] == name && IsLayer(name)
      requires who.InOrphans? ==> !OwnedByHandled(name, who.handled)
      modifies this`rows, this`machines, this`run, this`faults
      ensures Valid() && old(run) <= run
      ensures Left(Now(), who, Removing(todo), if ok then More(Stopping(todo[1..])) else GaveUp)
      ensures Kept(old(W()), W(), who.c)
      ensures Now().mode.Repair? ==> EnvironmentRan(old(W()), W())
      ensures ok ==> name !in machines
      ensures faults == old(faults) + (if ok then 0 else 1)
    {
      hide IsRun, Sound;
      Pause(who.c);
      ok := KraftRm(name);
      MachinesShrink(Now().world, W(), name);
      if Now().mode.Repair? {
        LayerRemoval(old(W()), Now().world, W(), name);
      }
      Remove(who, Removing(todo), if ok then More(Stopping(todo[1..])) else GaveUp);
    }

    /** removeMachine: stop, then rm. */
    method RemoveMachine(name: string, ghost who: Caller, ghost todo: seq<string>) returns (ok: bool)
      requires Valid() && (Now().mode.Up? ==> who.c in ids)
      requires Here(Now(), who, Stopping(todo)) && todo != [] && todo[0] == name && IsLayer(name)
      requires who.InOrphans? ==> !OwnedByHandled(name, who.handled)
      modifies this`rows, this`machines, this`run, this`faults, this`unremoved
      ensures Valid() && old(run) <= run
      ensures Left(Now(), who, Stopping(todo), if ok then More(Stopping(todo[1..])) else GaveUp)
      ensures Kept(old(W()), W(), who.c)
      ensures Now().mode.Repair? ==> EnvironmentRan(old(W()), W())
      ensures ok ==> name !in machines
      ensures faults >= old(faults) && (ok <==> faults == old(faults))
      ensures unremoved == if ok then old(unremoved) else old(unremoved) + [name]
    {
      hide IsRun, Sound;
      ok := StopHead(name, who, todo);
      if ok {
        ok := RmHead(name, who, todo);
      }
      if !ok {
        unremoved := unremoved + [name];
      }
    }

    /** The removal loop ends here without a command: cancelled, or through. */
    ghost method EndRemoval(who: Caller, todo: seq<string>)
      requires Valid() && Here(Now(), who, Stopping(todo)) && !who.InOrphans?
      modifies this`run
      ensures Valid() && old(run) < run
      ensures Left(Now(), who, Listing, if todo == [] then Cleared else GaveUp)
    {
      hide IsRun, Sound;
      Remove(who, Stopping(todo), if todo == [] then Cleared else GaveUp);
    }

    /** One turn of the loop that clearStaleMachines and teardownChart share. */
    method RemoveNext(name: string, ghost who: Caller, ghost todo: seq<string>) returns (ok: bool)
      requires Valid() && (!who.InTakeDown? ==> who.c in ids) && !who.InOrphans?
      requires Here(Now(), who, Stopping(todo)) && todo != [] && todo[0] == name && IsLayer(name)
      modifies this`rows, this`machines, this`run, this`faults, this`unremoved
      ensures Valid() && old(run) <= run && old(unremoved) <= unremoved
      ensures if ok then Here(Now(), who, Stopping(todo[1..])) else Left(Now(), who, Listing, GaveUp)
      ensures Kept(old(W()), W(), who.c)
      ensures who.InTakeDown? ==> EnvironmentRan(old(W()), W())
      ensures faults >= old(faults) && (ok <==> faults == old(faults))
    {
      hide IsRun, Sound, RemovalStep;
      var cancelled: bool := *;
      if cancelled {
        faults := faults + 1;
        EndRemoval(who, todo);
        return false;
      }
      ok := RemoveMachine(name, who, todo);
    }

    /** The loop that clearStaleMachines and teardownChart share. */
    method RemoveListed(own: seq<Machine>, ghost who: Caller) returns (ok: bool)
      requires Valid() && (!who.InTakeDown? ==> who.c in ids) && !who.InOrphans?
      requires Here(Now(), who, Stopping(NamesOf(own)))
      requires forall n :: n in NamesOf(own) ==> Owns(who.c, n)
      modifies this`rows, this`machines, this`run, this`faults, this`unremoved
      ensures Valid() && old(run) <= run && old(unremoved) <= unremoved
      ensures Left(Now(), who, Listing, if ok then Cleared else GaveUp)
      ensures Kept(old(W()), W(), who.c)
      ensures who.InTakeDown? ==> EnvironmentRan(old(W()), W())
      ensures faults >= old(faults) && (ok <==> faults == old(faults))
    {
      OwnsItsLayers(who.c, "");
      assert Kept(W(), W(), who.c) && EnvironmentRan(W(), W());
      hide IsRun, Sound, RemovalStep, Kept, EnvironmentRan, Owns, IsLayer, Left, Here;
      ghost var names := NamesOf(own);
      var i := 0;
      assert names[0..] == names;
      while i < |own|
        invariant 0 <= i <= |own|
        invariant Valid() && old(run) <= run && Here(Now(), who, Stopping(names[i..]))
        invariant Kept(old(W()), W(), who.c)
        invariant who.InTakeDown? ==> EnvironmentRan(old(W()), W())
        invariant faults == old(faults) && old(unremoved) <= unremoved
      {
        NamesAfter(own, i);
        ghost var was := W();
        ok := RemoveNext(own[i].name, who, names[i..]);
        Onward(old(W()), was, W(), who.c);
        if !ok {
          return;
        }
        i := i + 1;
      }
      assert names[i..] == [];
      EndRemoval(who, []);
      ok := true;
    }

    /** clearStaleMachines: refuses over a running machine, removes the others. `seen` is the
        world at the listing, if that succeeded: it alone decides on a refusal. */
    method ClearStaleMachines(c: string, ghost op: Op) returns (r: Outcome, ghost read: bool, ghost seen: World)
      requires Valid() && c in ids && Serving(Now(), c, op.(pc := Clear(Listing)))
      modifies this`rows, this`machines, this`run, this`faults, this`unremoved
      ensures Valid() && old(run) <= run
      ensures r.Ok? || r.ChartRunning? || r.NotStarted?
      ensures r.ChartRunning? <==> read && OwnRuns(seen, c)
      ensures read ==> SeenIn(run, |old(run)| - 1, seen)
      ensures r.ChartRunning? ==> W() == seen
      ensures faults >= old(faults) && (read || faults > old(faults))
      ensures r.NotStarted? <==> faults > old(faults)
      ensures r.Ok? ==> Serving(Now(), c, op.(pc := Preflight))
      ensures !r.Ok? ==> Now().mode.Up? && At(Now(), c) == Returned
      ensures Kept(old(W()), W(), c)
    {
      hide IsRun, Sound;
      Pause(c);
      label P:
      ghost var who := InClear(c, op);
      read, seen := false, W();
      var listed := ChartMachines(c);
      if listed.ListFailed? {
        Remove(who, Listing, GaveUp);
        r := NotStarted;
        return;
      }
      ghost var at := |run| - 1;
      read := true;
      assert run[at].world == seen;
      var own := listed.all;
      for i := 0 to |own|
        invariant forall j :: 0 <= j < i ==> own[j].status != RUNNING
        invariant run == old@P(run) && W() == old@P(W()) && faults == old(faults)
      {
        if own[i].status == RUNNING {
          assert own[i] in own && own[i].name == NamesOf(own)[i];
          assert OwnRuns(W(), c);
          Refuse(c, op);
          r := ChartRunning;
          return;
        }
      }
      NoneOfThemRuns(own, c);
      Remove(who, Listing, More(Stopping(NamesOf(own))));
      var ok := RemoveListed(own, who);
      r := if ok then Ok else NotStarted;
      assert run[at].world == seen;
    }

    lemma HasBegun()
      requires Valid()
      ensures |run| > 0
    {
    }

    /** A call to start chart c, up to the pre-flight. */
    method BeginCleared(c: string, ghost op: Op) returns (r: Outcome, ghost read: bool, ghost seen: World)
      requires Valid() && Now().mode.Up? && c in ids && c !in Now().ops && op.pc == Clear(Listing)
      modifies this`rows, this`machines, this`run, this`faults, this`unremoved
      ensures Valid() && old(run) <= run && Now().mode.Up?
      ensures r.Ok? || r.ChartRunning? || r.NotStarted?
      ensures r.ChartRunning? <==> read && OwnRuns(seen, c)
      ensures read ==> SeenIn(run, |old(run)| - 1, seen)
      ensures r.ChartRunning? ==> OwnRuns(W(), c)
      ensures faults >= old(faults) && (read || faults > old(faults)) && (r.NotStarted? <==> faults > old(faults))
      ensures if r.Ok? then Serving(Now(), c, op.(pc := Preflight)) else c !in Now().ops
      ensures Kept(old(W()), W(), c)
    {
      hide IsRun, Sound, OwnRuns, Kept, SeenIn;
      Begin(c, op);
      ghost var begun := |run| - 1;
      r, read, seen := ClearStaleMachines(c, op);
      if read {
        SeenSince(run, |old(run)| - 1, begun, seen);
      }
    }

    ghost method Refuse(c: string, op: Op)
      requires Valid() && Serving(Now(), c, op.(pc := Clear(Listing))) && OwnRuns(W(), c)
      modifies this`run
      ensures Valid() && old(run) < run && Now().mode.Up? && At(Now(), c) == Returned
    {
      hide IsRun, Sound;
      Serve(c, Running(op.(pc := Refused)));
      Serve(c, Returned);
    }

    lemma NoneOfThemRuns(own: seq<Machine>, c: string)
      requires ListsMachinesOf(W(), c, NamesOf(own))
      requires forall m :: m in own ==> m.name in machines && machines[m.name] == m.status && m.status != RUNNING
      ensures NoneRunning(W(), NamesOf(own)) && !OwnRuns(W(), c)
    {
      forall n | n in NamesOf(own) && n in machines
        ensures machines[n] != RUNNING
      {
        var i :| 0 <= i < |own| && own[i].name == n;
        assert own[i] in own;
      }
    }

    /** teardownChart: takes down whatever carries the chart's prefix. */
    method TeardownChart(c: string, ghost who: Caller) returns (ok: bool)
      requires Valid() && (Now().mode.Up? ==> c in ids) && who.c == c
      requires who.InTeardown? || who.InTakeDown?
      requires Here(Now(), who, Listing)
      modifies this`rows, this`machines, this`run, this`faults, this`unremoved
      ensures Valid() && old(run) <= run && old(unremoved) <= unremoved
      ensures Left(Now(), who, Listing, if ok then Cleared else GaveUp)
      ensures ok ==> Quiet(W(), c)
      ensures Kept(old(W()), W(), c)
      ensures Now().mode.Repair? ==> EnvironmentRan(old(W()), W())
      ensures faults >= old(faults) && (ok <==> faults == old(faults))
    {
      hide IsRun, Sound;
      Pause(c);
      var listed := ChartMachines(c);
      if listed.ListFailed? {
        Remove(who, Listing, GaveUp);
        return false;
      }
      Remove(who, Listing, More(Stopping(NamesOf(listed.all))));
      ok := RemoveListed(listed.all, who);
      if ok {
        ClearedIsQuiet(ids, Now(), who, Listing);
      }
    }

    // ---- Operations on a chart ----

    /** A state write by the operation on c. */
    method Mark(c: string, st: ChartState, ghost op: Op, ghost next: MaybeOp) returns (ok: bool)
      requires Valid() && c in ids && Serving(Now(), c, op) && Marks(op, st, next)
      modifies this`rows, this`machines, this`run, this`faults
      ensures Valid() && old(run) <= run && Now().mode.Up?
      ensures At(Now(), c) == if ok then next else Returned
      ensures ok ==> c in rows && rows[c] == st
      ensures !ok ==> (c in rows && rows[c] == st) || Kept(old(W()), W(), c)
      ensures forall n :: n in machines && Owns(c, n) ==> n in old(machines)
      ensures faults == old(faults) + (if ok then 0 else 1)
    {
      hide IsRun, Sound;
      Pause(c);
      ok := UpdateChartState(c, st);
      Serve(c, if ok then next else Returned);
    }

    /** The part KillChart and abortStart share: mark Stopping, tear down, mark Stopped.
        It succeeds exactly when no command and no write fails. Then nothing named after the
        chart is left, whichever saved version of the chart it was booted from; otherwise the
        row still says so. */
    method TakeChartDown(c: string, ghost op: Op) returns (ok: bool)
      requires Valid() && c in ids && Serving(Now(), c, op.(pc := MarkStopping))
      modifies this`rows, this`machines, this`run, this`faults, this`unremoved
      ensures Valid() && old(run) <= run && Now().mode.Up? && c !in Now().ops
      ensures faults >= old(faults) && (ok <==> faults == old(faults))
      ensures ok ==> c in rows && rows[c] == STOPPED && Quiet(W(), c)
      ensures !ok ==>
        || (c in rows && rows[c] == STOPPED && Quiet(W(), c))
        || (c in rows && rows[c] == STOPPING)
        || Kept(old(W()), W(), c)
    {
      hide IsRun, Sound;
      ok := Mark(c, STOPPING, op.(pc := MarkStopping), Running(op.(pc := Teardown(Listing))));
      if !ok {
        return;
      }
      ok := TeardownChart(c, InTeardown(c, op));
      if !ok {
        return;
      }
      ok := Mark(c, STOPPED, op.(pc := MarkStopped), Returned);
    }

    method KillChart(chart: P.Chart) returns (ok: bool)
      requires Valid() && Now().mode.Up? && chart.id in ids && chart.id !in Now().ops
      modifies this`rows, this`machines, this`run, this`faults, this`unremoved
      ensures Valid() && old(run) <= run && Now().mode.Up? && chart.id !in Now().ops
      ensures faults >= old(faults) && (ok <==> faults == old(faults))
      ensures ok ==> chart.id in rows && rows[chart.id] == STOPPED
      ensures ok ==> forall layer :: MachineName(chart.id, layer) !in machines
      ensures !ok ==>
        || (chart.id in rows && rows[chart.id] == STOPPED && Quiet(W(), chart.id))
        || (chart.id in rows && rows[chart.id] == STOPPING)
        || Kept(old(W()), W(), chart.id)
    {
      hide IsRun, Sound;
      ghost var op := Op([], MarkStopping);
      Begin(chart.id, op);
      ok := TakeChartDown(chart.id, op);
      forall layer
        ensures Owns(chart.id, MachineName(chart.id, layer))
      {
        OwnsItsLayers(chart.id, layer);
      }
    }

    /** buildTopicMap and ResolveLayers, which change neither rows nor machines. */
    method Resolve(chart: P.Chart, answers: P.Entry -> P.Result<string>, fs: P.Fs, ghost op: Op)
      returns (ok: bool, topicMap: map<string, string>, imageMap: map<string, string>)
      requires Valid() && chart.id in ids && Serving(Now(), chart.id, op.(pc := Preflight))
      modifies this`rows, this`machines, this`run
      ensures Valid() && old(run) <= run && Now().mode.Up?
      ensures At(Now(), chart.id) == if ok then Running(op.(pc := MarkStarting)) else Returned
      ensures Kept(old(W()), W(), chart.id)
      ensures ok <==> P.Startable(chart, answers, fs)
      ensures ok ==> P.Passed(chart, topicMap, imageMap) && P.ImagesOf(chart, answers, imageMap)
    {
      hide IsRun, Sound, P.Startable, P.Passed, P.ImagesOf;
      Pause(chart.id);
      var checked;
      checked, topicMap, imageMap := P.CheckChart(chart, answers, fs);
      ok := checked.Ok?;
      Serve(chart.id, if ok then Running(op.(pc := MarkStarting)) else Returned);
    }

    /** The body of a boot loop: a cancelled context, or a layer whose command cannot be made
        up, stops it before kraft is asked to run that layer. */
    method BootLayer(b: P.Boot, e: P.Entry, ghost i: nat, ghost op: Op) returns (h: Halt)
      requires Valid() && b.chart.id in ids && Serving(Now(), b.chart.id, op.(pc := Boot(i)))
      requires P.InChart(b.chart, e) && P.Passed(b.chart, b.topicMap, b.imageMap) && "/" <= b.imageDir
      requires i < |op.layers| && op.layers[i] == P.LayerOf(b.chart, e).id
      requires b.chart.id in rows && rows[b.chart.id] == STARTING
      modifies this`rows, this`machines, this`run, this`faults, this`issued
      ensures Valid() && old(run) <= run
      ensures b.chart.id in rows && rows[b.chart.id] == STARTING
      ensures Serving(Now(), b.chart.id, op.(pc := if h.Through? then Boot(i + 1) else MarkStopping))
      ensures faults == old(faults) + Cost(h)
      ensures h.LinkUndeclared? ==> P.UndeclaredIn(b.chart, h.link)
      ensures if h.Through? || h.RunFailed? then Issued(old(issued), issued, b, [e]) else issued == old(issued)
    {
      hide IsRun, Sound, P.Passed, P.Runs, P.SoftDeclared, P.UndeclaredIn, Issued;
      var c := b.chart.id;
      Pause(c);
      NothingIssued(issued, b);
      var cancelled: bool := *;
      if cancelled {
        faults := faults + 1;
        Serve(c, Running(op.(pc := MarkStopping)));
        return Cancelled;
      }
      var prepared := P.PrepareLayer(b, e);
      if prepared.Err? {
        Serve(c, Running(op.(pc := MarkStopping)));
        return LinkUndeclared(prepared.error.link);
      }
      MachineIsTheLayers(b, e, prepared.value);
      var ok := KraftRun(prepared.value);
      h := if ok then Through else RunFailed;
      OneMoreIssued(old(issued), old(issued), b, [], e, prepared.value);
      assert [] + [e] == [e];
      Serve(c, Running(op.(pc := if ok then Boot(i + 1) else MarkStopping)));
    }

    /** One of the three boot loops. */
    method BootLayers(b: P.Boot, entries: seq<P.Entry>, ghost before: nat, ghost op: Op) returns (h: Halt)
      requires Valid() && b.chart.id in ids && Serving(Now(), b.chart.id, op.(pc := Boot(before)))
      requires P.Passed(b.chart, b.topicMap, b.imageMap) && "/" <= b.imageDir
      requires forall e :: e in entries ==> P.InChart(b.chart, e)
      requires before + |entries| <= |op.layers| && op.layers[before..before + |entries|] == Ids(b.chart, entries)
      requires b.chart.id in rows && rows[b.chart.id] == STARTING
      modifies this`rows, this`machines, this`run, this`faults, this`issued
      ensures Valid() && old(run) <= run
      ensures b.chart.id in rows && rows[b.chart.id] == STARTING
      ensures Serving(Now(), b.chart.id, op.(pc := if h.Through? then Boot(before + |entries|) else MarkStopping))
      ensures faults == old(faults) + Cost(h)
      ensures h.LinkUndeclared? ==> P.UndeclaredIn(b.chart, h.link)
      ensures h.Through? ==> Issued(old(issued), issued, b, entries)
      ensures !h.Through? ==> IssuedUpTo(old(issued), issued, b, entries)
    {
      hide IsRun, Sound, P.Passed, P.UndeclaredIn, Issued, P.LayerOf, P.InChart, OpStep;
      NothingIssued(issued, b);
      var i := 0;
      while i < |entries|
        invariant 0 <= i <= |entries|
        invariant Valid() && old(run) <= run && Serving(Now(), b.chart.id, op.(pc := Boot(before + i)))
        invariant b.chart.id in rows && rows[b.chart.id] == STARTING
        invariant Issued(old(issued), issued, b, entries[..i]) && faults == old(faults)
      {
        assert op.layers[before + i] == op.layers[before..before + |entries|][i] == Ids(b.chart, entries)[i];
        ghost var was := issued;
        h := BootLayer(b, entries[i], before + i, op);
        if h.Through? || h.RunFailed? {
          assert entries[..i + 1] == entries[..i] + [entries[i]];
          IssuedInTurn(old(issued), was, issued, b, entries[..i], [entries[i]]);
        }
        if !h.Through? {
          return;
        }
        i := i + 1;
      }
      assert entries[..i] == entries;
      h := Through;
    }

    /** The three boot loops in a row. */
    method BootAll(b: P.Boot, ps: seq<P.Entry>, ts: seq<P.Entry>, es: seq<P.Entry>, ghost op: Op) returns (h: Halt)
      requires Valid() && b.chart.id in ids && Serving(Now(), b.chart.id, op.(pc := Boot(0)))
      requires P.Passed(b.chart, b.topicMap, b.imageMap) && "/" <= b.imageDir
      requires forall e :: e in ps + ts + es ==> P.InChart(b.chart, e)
      requires op.layers == Ids(b.chart, ps + ts + es)
      requires b.chart.id in rows && rows[b.chart.id] == STARTING
      modifies this`rows, this`machines, this`run, this`faults, this`issued
      ensures Valid() && old(run) <= run
      ensures b.chart.id in rows && rows[b.chart.id] == STARTING
      ensures Serving(Now(), b.chart.id, op.(pc := if h.Through? then MarkStarted else MarkStopping))
      ensures faults == old(faults) + Cost(h)
      ensures h.LinkUndeclared? ==> P.UndeclaredIn(b.chart, h.link)
      ensures h.Through? ==> Issued(old(issued), issued, b, ps + ts + es)
      ensures !h.Through? ==> IssuedUpTo(old(issued), issued, b, ps + ts + es)
    {
      hide IsRun, Sound, P.Passed, P.UndeclaredIn, Issued, IssuedUpTo, P.LayerOf, P.InChart, OpStep;
      InTurn(b.chart, ps, ts, es);
      ghost var i0 := issued;
      NothingIssued(i0, b);
      assert [] + ps + (ts + es) == ps + ts + es && (ps + ts) + es + [] == ps + ts + es;
      h := BootLayers(b, ps, 0, op);
      if !h.Through? {
        IssuedThenUpTo(i0, i0, issued, b, [], ps, ts + es);
        return;
      }
      ghost var i1 := issued;
      h := BootLayers(b, ts, |ps|, op);
      if !h.Through? {
        IssuedThenUpTo(i0, i1, issued, b, ps, ts, es);
        return;
      }
      ghost var i2 := issued;
      IssuedInTurn(i0, i1, i2, b, ps, ts);
      h := BootLayers(b, es, |ps| + |ts|, op);
      if !h.Through? {
        IssuedThenUpTo(i0, i2, issued, b, ps + ts, es, []);
        return;
      }
      IssuedInTurn(i0, i2, issued, b, ps + ts, es);
      EndBoot(b.chart.id, op);
    }

    /** The boot loops are over. */
    method EndBoot(c: string, ghost op: Op)
      requires Valid() && c in ids && Serving(Now(), c, op.(pc := Boot(|op.layers|)))
      modifies this`rows, this`machines, this`run
      ensures Valid() && old(run) <= run && Serving(Now(), c, op.(pc := MarkStarted))
      ensures Kept(old(W()), W(), c)
    {
      hide IsRun, Sound;
      Pause(c);
      Serve(c, Running(op.(pc := MarkStarted)));
    }

    /** The start from the first write on. */
    method StartChart(b: P.Boot, ps: seq<P.Entry>, ts: seq<P.Entry>, es: seq<P.Entry>, ghost op: Op)
      returns (r: Outcome)
      requires Valid() && b.chart.id in ids && Serving(Now(), b.chart.id, op.(pc := MarkStarting))
      requires P.Passed(b.chart, b.topicMap, b.imageMap) && "/" <= b.imageDir
      requires forall e :: e in ps + ts + es ==> P.InChart(b.chart, e)
      requires op.layers == Ids(b.chart, ps + ts + es)
      modifies this`rows, this`machines, this`run, this`faults, this`unremoved, this`issued
      ensures Valid() && old(run) <= run && Now().mode.Up? && b.chart.id !in Now().ops
      ensures faults >= old(faults) && !r.ChartRunning? && (r.NotStarted? ==> faults > old(faults))
      ensures Ends(r, b, ps + ts + es, old(W()), W(), old(issued), issued, faults - old(faults))
    {
      hide IsRun, Sound, OpStep, Quiet, P.Passed, P.InChart, P.UndeclaredIn, Issued, IssuedUpTo, Ids;
      var c := b.chart.id;
      var ok := Mark(c, STARTING, op.(pc := MarkStarting), Running(op.(pc := Boot(0))));
      if !ok {
        return NotStarted;
      }

      var h := BootAll(b, ps, ts, es, op);
      if !h.Through? {
        var _ := TakeChartDown(c, op);
        return Aborted(h);
      }

      ok := Mark(c, STARTED, op.(pc := MarkStarted), Returned);
      r := if ok then Ok else NotMarked;
    }

    /** The start from the pre-flight on. */
    method ResolveAndStart(chart: P.Chart, answers: P.Entry -> P.Result<string>, setup: P.Setup, before: P.Fs,
                           later: P.Fs, ps: seq<P.Entry>, ts: seq<P.Entry>, es: seq<P.Entry>, ghost op: Op)
      returns (r: Outcome, ghost b: P.Boot)
      requires Valid() && chart.id in ids && Serving(Now(), chart.id, op.(pc := Preflight)) && "/" <= setup.imageDir
      requires forall e :: e in ps + ts + es ==> P.InChart(chart, e)
      requires op.layers == Ids(chart, ps + ts + es)
      modifies this`rows, this`machines, this`run, this`faults, this`unremoved, this`issued
      ensures Valid() && old(run) <= run && Now().mode.Up? && chart.id !in Now().ops
      ensures P.FitsSetup(b, chart, setup, later) && b.chart == chart
      ensures faults >= old(faults) && !r.ChartRunning?
      ensures Ends(r, b, ps + ts + es, old(W()), W(), old(issued), issued, faults - old(faults))
      ensures r.NotStarted? ==> faults > old(faults) || !P.Startable(chart, answers, before)
      ensures !r.NotStarted? ==> P.Startable(chart, answers, before) && P.ImagesOf(chart, answers, b.imageMap)
    {
      hide IsRun, Sound, OpStep, Quiet, OwnRuns, Issued, IssuedUpTo, Ids, Kept, Ends;
      hide P.Startable, P.Passed, P.ImagesOf, P.InChart;
      b := P.Boot(chart, map[], map[], later, setup.imageDir, setup.mqAddr, setup.volumeOf);
      var ok, topicMap, imageMap := Resolve(chart, answers, before, op);
      if !ok {
        NothingEnds(b, ps + ts + es, old(W()), W(), issued);
        r := NotStarted;
        return;
      }
      var boot := P.Boot(chart, topicMap, imageMap, later, setup.imageDir, setup.mqAddr, setup.volumeOf);
      b := boot;
      ghost var resolved := W();
      r := StartChart(boot, ps, ts, es, op);
      EndsSince(r, boot, ps + ts + es, old(W()), resolved, W(), old(issued), issued, faults - old(faults));
    }

    /** A chart is started whole or not at all; `b` is what its layers are booted with, and
        `entries` the order of the boot loops, in which each layer of the three maps stands once.
        Ok: the chart passed the pre-flight, all its soft links are declared, kraft ran each
        layer with all that is its own, as the runner is set up, and the row is Started.
        Otherwise: kraft was never asked, and the row is as it was or says Starting; or nothing
        of the chart is left under Stopped, unless taking it down failed as well, and then the
        row says Starting or Stopping; or every layer was run without a fault, only the last
        write failed, and the row says Starting or Started.
        Without a fault the outcome is decided by the chart and by `seen`, the world when the
        machines were listed. */
    method InstantiateChart(chart: P.Chart, answers: P.Entry -> P.Result<string>, setup: P.Setup, before: P.Fs,
                            later: P.Fs)
      returns (r: Outcome, ghost b: P.Boot, ghost entries: seq<P.Entry>, ghost read: bool, ghost seen: World)
      requires Valid() && Now().mode.Up? && chart.id in ids && chart.id !in Now().ops
      requires "/" <= setup.imageDir
      modifies this`rows, this`machines, this`run, this`faults, this`unremoved, this`issued
      ensures Valid() && old(run) <= run && Now().mode.Up? && chart.id !in Now().ops
      ensures P.AllEntries(chart, entries) && P.FitsSetup(b, chart, setup, later)
      ensures Ends(r, b, entries, old(W()), W(), old(issued), issued, faults - old(faults))
      ensures faults >= old(faults) && (read || faults > old(faults))
      ensures read ==> SeenIn(run, |old(run)| - 1, seen)
      ensures r.ChartRunning? <==> read && OwnRuns(seen, chart.id)
      ensures faults == old(faults) && !r.ChartRunning? ==>
        && (r.NotStarted? <==> !P.Startable(chart, answers, before))
        && (r.Ok? <==> P.Startable(chart, answers, before) && P.AllSoftDeclared(chart))
      ensures r.Ok? || r.NotMarked? || r.Aborted? ==>
        P.Startable(chart, answers, before) && P.ImagesOf(chart, answers, b.imageMap)
      ensures r.Ok? || r.NotMarked? ==>
        P.AllSoftDeclared(chart) && AsSetUp(chart, setup, b.imageMap, entries, old(issued), issued)
    {
      hide *;
      HasBegun();
      var ps, ts, es := P.Range(chart);
      entries := ps + ts + es;
      b := P.Boot(chart, map[], map[], later, setup.imageDir, setup.mqAddr, setup.volumeOf);
      P.SetupIsTaken(chart, map[], map[], setup, later);
      ghost var op := Op(Ids(chart, entries), Clear(Listing));
      r, read, seen := BeginCleared(chart.id, op);
      ghost var cleared := W();
      if !r.Ok? {
        NothingEnds(b, entries, old(W()), cleared, issued);
        return;
      }
      ghost var early := run;
      assert issued == old(issued) && faults == old(faults);
      r, b := ResolveAndStart(chart, answers, setup, before, later, ps, ts, es, op);
      assert Ends(r, b, entries, cleared, W(), old(issued), issued, faults - old(faults));
      if read {
        StillSeen(early, run, |old(run)| - 1, seen);
      }
      EndsSince(r, b, entries, old(W()), cleared, W(), old(issued), issued, faults - old(faults));
      Started(r, b, chart, setup, later, entries, old(W()), W(), old(issued), issued, faults - old(faults));
    }

    // ---- Repair after a start ----

    ghost method Repaired(phase: Phase)
      requires |run| > 0 && IsRun(ids, run) && Sound(ids, Now()) && Now().mode.Repair?
      requires RepairStep(Now().world, Now().mode.phase, W(), Repair(phase))
      modifies this`run
      ensures Valid() && old(run) < run && Repairing(Now(), phase)
    {
      RepairKeepsOk(Now().world, Now().mode.phase, W(), Repair(phase));
      var next := Sys(W(), Repair(phase), Now().ops);
      assert RepairMoves(Now(), next);
      Record(next);
    }

    /** ownedByHandledChart: a search over the handled charts. */
    method OwnedByHandledChart(name: string, handled: set<string>) returns (owned: bool)
      ensures owned <==> OwnedByHandled(name, handled)
    {
      var left := handled;
      while left != {}
        invariant left <= handled
        invariant forall c :: c in handled && c !in left ==> !Owns(c, name)
        decreases left
      {
        var c :| c in left;
        if HasPrefix(name, ChartPrefix(c)) {
          return true;
        }
        left := left - {c};
      }
      owned := false;
    }

    ghost method BeginTakeDown(c: string, pending: set<string>, handled: set<string>, names: seq<string>)
      requires Valid() && c in pending && Repairing(Now(), Charts(pending, handled, names))
      modifies this`run
      ensures Valid() && old(run) < run
      ensures Repairing(Now(), TakeDown(c, Listing, pending - {c}, handled + {c}, names))
    {
      Repaired(TakeDown(c, Listing, pending - {c}, handled + {c}, names));
    }

    method MarkRepaired(c: string, ghost pending: set<string>, ghost handled: set<string>, ghost names: seq<string>)
      requires Valid() && Repairing(Now(), MarkDown(c, pending, handled, names))
      modifies this`rows, this`machines, this`run, this`faults
      ensures Valid() && old(run) <= run && Repairing(Now(), Charts(pending, handled, names))
      ensures EnvironmentRan(World(old(rows), old(machines)), World(old(rows), machines))
      ensures rows == old(rows) || rows == old(rows)[c := STOPPED]
      ensures faults >= old(faults) && (faults == old(faults) ==> rows == old(rows)[c := STOPPED])
    {
      hide IsRun, Sound;
      Pause(c);
      var _ := UpdateChartState(c, STOPPED);
      Repaired(Charts(pending, handled, names));
    }

    /** The body of the chart loop of Reconcile; both failures are logged and skipped. */
    method RepairChart(c: string, ghost start: World, ghost pending: set<string>, ghost handled: set<string>,
                       ghost names: seq<string>)
      requires Valid() && c in pending && Repairing(Now(), Charts(pending, handled, names))
      requires LeftToRepair(start, W(), pending, handled)
      modifies this`rows, this`machines, this`run, this`faults, this`unremoved
      ensures Valid() && old(run) <= run && old(unremoved) <= unremoved
      ensures Repairing(Now(), Charts(pending - {c}, handled + {c}, names))
      ensures LeftToRepair(start, W(), pending - {c}, handled + {c})
      ensures forall n :: n in machines ==> n in old(machines)
      ensures faults >= old(faults)
      ensures faults == old(faults) && old(AllDown(W(), handled)) ==> AllDown(W(), handled + {c})
      ensures NonStopped(rows) <= if faults == old(faults) then NonStopped(old(rows)) - {c} else NonStopped(old(rows))
    {
      hide IsRun, Sound, RepairStep, OpStep, LeftToRepair, AllDown;
      BeginTakeDown(c, pending, handled, names);
      var ok := TeardownChart(c, InTakeDown(c, pending - {c}, handled + {c}, names));
      if !ok {
        ChartGivenUp(start, old(W()), W(), c, pending, handled);
        return;
      }
      ghost var down := W();
      StillLeft(start, old(W()), down, pending, handled);
      MarkRepaired(c, pending - {c}, handled + {c}, names);
      ChartRepaired(start, down, W(), c, pending, handled);
    }

    /** The body of the orphan loop of Reconcile; a failed removal is logged and skipped. */
    method RemoveOrphan(name: string, handled: set<string>, ghost todo: seq<string>)
      requires Valid() && Repairing(Now(), StopOrphan(todo, handled)) && todo != [] && todo[0] == name
      modifies this`rows, this`machines, this`run, this`faults, this`unremoved
      ensures Valid() && old(run) <= run && Repairing(Now(), StopOrphan(todo[1..], handled))
      ensures EnvironmentRan(old(W()), W())
      ensures old(unremoved) <= unremoved && faults >= old(faults)
      ensures Orphan(name, handled) ==> Failed(name, |old(unremoved)|) && faults > old(faults)
    {
      hide IsRun, Sound;
      var owned := OwnedByHandledChart(name, handled);
      if !HasPrefix(name, LAYER_PREFIX + NAME_SEP) || owned {
        Repaired(StopOrphan(todo[1..], handled));
      } else {
        var _ := RemoveMachine(name, InOrphans("", handled), todo);
      }
    }

    ghost method BeginOrphans(handled: set<string>, names: seq<string>)
      requires Valid() && Repairing(Now(), Charts({}, handled, names))
      modifies this`run
      ensures Valid() && old(run) < run && Repairing(Now(), StopOrphan(names, handled))
    {
      Repaired(StopOrphan(names, handled));
    }

    /** An orphan that must not survive its turn. */
    ghost predicate Orphan(name: string, handled: set<string>)
      reads this`machines
    {
      name in machines && IsLayer(name) && !OwnedByHandled(name, handled)
    }

    /** The orphan loop of Reconcile, over the listing taken before the teardowns. */
    method RemoveOrphans(listed: seq<Machine>, handled: set<string>, ghost start: World)
      requires Valid() && Repairing(Now(), Charts({}, handled, NamesOf(listed)))
      requires LeftToRepair(start, W(), {}, handled)
      modifies this`rows, this`machines, this`run, this`faults, this`unremoved
      ensures Valid() && old(run) <= run && Repairing(Now(), StopOrphan([], handled))
      ensures LeftToRepair(start, W(), {}, handled) && rows == old(rows)
      ensures old(AllDown(W(), handled)) ==> AllDown(W(), handled)
      ensures forall n :: n in machines ==> n in old(machines)
      ensures faults >= old(faults) && old(unremoved) <= unremoved
      ensures forall n :: n in NamesOf(listed) && Orphan(n, handled) ==>
            Failed(n, |old(unremoved)|) && faults > old(faults)
    {
      hide IsRun, Sound, RepairStep, LeftToRepair, OwnedByHandled;
      ghost var names := NamesOf(listed);
      BeginOrphans(handled, names);
      var i := 0;
      assert names[0..] == names;
      while i < |listed|
        invariant 0 <= i <= |listed|
        invariant Valid() && old(run) <= run && Repairing(Now(), StopOrphan(names[i..], handled))
        invariant EnvironmentRan(old(W()), W())
        invariant faults >= old(faults) && old(unremoved) <= unremoved
        invariant forall j :: 0 <= j < i && Orphan(names[j], handled) ==>
              Failed(names[j], |old(unremoved)|) && faults > old(faults)
      {
        NamesAfter(listed, i);
        ghost var was := unremoved;
        RemoveOrphan(listed[i].name, handled, names[i..]);
        StillLogged(was, unremoved, |old(unremoved)|);
        i := i + 1;
      }
      assert names[i..] == [];
      StillLeft(start, old(W()), W(), {}, handled);
    }

    /** The process starts serving. The invariant of `Lifecycle` holds again if it held
        when the run began, since it holds in every state of such a run. */
    ghost method StartServing(handled: set<string>)
      requires Valid() && Repairing(Now(), StopOrphan([], handled))
      modifies this`run
      ensures IsRun(ids, run) && old(run) < run
      ensures Now() == Sys(W(), Up, map[])
      ensures PrefixFree(ids) && Inv(ids, old(run)[0]) ==> Valid()
    {
      var before := run;
      var next := Sys(W(), Up, map[]);
      assert RepairMoves(Now(), next);
      run := run + [next];
      forall i | 0 <= i < |run| - 1
        ensures Next(ids, run[i], run[i + 1])
      {
        if i < |before| - 1 {
          assert Next(ids, before[i], before[i + 1]);
        }
      }
      if PrefixFree(ids) && Inv(ids, run[0]) {
        RunKeepsInv(ids, run, |run| - 1);
      }
    }

    /** What Reconcile reads first: the charts not stopped, then every machine. */
    method Survey() returns (pending: set<string>, listed: Listed)
      requires Valid() && Repairing(Now(), LoadRows)
      modifies this`rows, this`machines, this`run, this`faults
      ensures Valid() && old(run) <= run && rows == old(rows)
      ensures OnlyShrank(old(W()), W())
      ensures listed.ListFailed? ==> Repairing(Now(), LoadRows) && faults > old(faults)
      ensures listed.Machines? ==>
        && LeftToRepair(old(W()), W(), pending, {}) && faults == old(faults)
        && Repairing(Now(), Charts(pending, {}, NamesOf(listed.all)))
        && forall n :: n in machines ==> n in NamesOf(listed.all)
    {
      hide IsRun, Sound, RepairStep;
      var read: bool;
      read, pending := ReadRows();
      if !read {
        return pending, ListFailed;
      }
      listed := ReadMachines(pending);
    }

    /** ListChartStates, and the filter at the head of the chart loop. */
    method ReadRows() returns (read: bool, pending: set<string>)
      requires Valid() && Repairing(Now(), LoadRows)
      modifies this`rows, this`machines, this`run, this`faults
      ensures Valid() && old(run) <= run && EnvironmentRan(old(W()), W())
      ensures Repairing(Now(), if read then LoadMachines(pending) else LoadRows)
      ensures pending == NonStopped(rows) && faults == old(faults) + (if read then 0 else 1)
    {
      hide IsRun, Sound;
      Pause("");
      pending := set c | c in rows && rows[c] != STOPPED;
      read := *;
      if !read {
        faults := faults + 1;
      }
      Repaired(if read then LoadMachines(pending) else LoadRows);
    }

    method ReadMachines(pending: set<string>) returns (listed: Listed)
      requires Valid() && Repairing(Now(), LoadMachines(pending))
      modifies this`rows, this`machines, this`run, this`faults
      ensures Valid() && old(run) <= run && EnvironmentRan(old(W()), W())
      ensures listed.ListFailed? ==> Repairing(Now(), LoadRows) && faults > old(faults)
      ensures listed.Machines? ==>
        && Repairing(Now(), Charts(pending, {}, NamesOf(listed.all))) && faults == old(faults)
        && forall n :: n in machines ==> n in NamesOf(listed.all)
    {
      hide IsRun, Sound;
      Pause("");
      listed := ListMachines();
      if listed.Machines? {
        NamesCover(listed.all, machines);
      }
      Repaired(if listed.Machines? then Charts(pending, {}, NamesOf(listed.all)) else LoadRows);
    }

    /** The chart loop of Reconcile. */
    method RepairCharts(charts: set<string>, ghost names: seq<string>, ghost start: World)
      returns (handled: set<string>)
      requires Valid() && Repairing(Now(), Charts(charts, {}, names))
      requires LeftToRepair(start, W(), charts, {})
      modifies this`rows, this`machines, this`run, this`faults, this`unremoved
      ensures Valid() && old(run) <= run && Repairing(Now(), Charts({}, handled, names))
      ensures LeftToRepair(start, W(), {}, handled)
      ensures forall n :: n in machines ==> n in old(machines)
      ensures faults >= old(faults) && (faults == old(faults) ==> AllDown(W(), handled))
      ensures |NonStopped(rows)| <= faults - old(faults)
      ensures old(unremoved) <= unremoved
    {
      hide IsRun, Sound, LeftToRepair, AllDown, NonStopped;
      var pending := charts;
      handled := {};
      NothingHandled(W());
      LeftIsPending(start, W(), pending, {});
      while pending != {}
        invariant |NonStopped(rows) - pending| <= faults - old(faults)
        invariant Valid() && old(run) <= run && Repairing(Now(), Charts(pending, handled, names))
        invariant LeftToRepair(start, W(), pending, handled)
        invariant forall n :: n in machines ==> n in old(machines)
        invariant faults >= old(faults) && (faults == old(faults) ==> AllDown(W(), handled))
        invariant old(unremoved) <= unremoved
        decreases pending
      {
        var c :| c in pending;
        ghost var was := NonStopped(rows);
        RepairChart(c, start, pending, handled, names);
        OneMoreLeft(was, NonStopped(rows), pending, c);
        pending, handled := pending - {c}, handled + {c};
      }
      assert NonStopped(rows) - {} == NonStopped(rows);
    }

    /** Reconcile, from any store and any set of machines, whatever their names.
        Every machine of the runner that survives it either belongs to a chart whose row
        still asks for repair or is an orphan whose own removal failed, and each failure
        leaves at most one chart not Stopped. If no command and no write failed there is no
        such machine, every chart is Stopped, and the invariant of `Lifecycle` holds, whether
        or not it did before. Nothing else on the host is touched. */
    method Reconcile() returns (ok: bool)
      requires Valid() && Repairing(Now(), LoadRows)
      modifies this`rows, this`machines, this`run, this`faults, this`unremoved
      ensures old(run) <= run && IsRun(ids, run) && Now().world == W()
      ensures if ok then Now().mode == Up && Now().ops == map[] else Repairing(Now(), LoadRows)
      ensures !ok || (PrefixFree(ids) && Inv(ids, old(run)[0])) ==> Valid()
      ensures ok && faults == old(faults) && PrefixFree(ids) ==> Valid()
      ensures OnlyShrank(old(W()), W())
      ensures !ok ==> faults > old(faults) && rows == old(rows)
      ensures old(unremoved) <= unremoved
      ensures ok ==> forall n :: n in machines && IsLayer(n) ==>
                       AskedFor(W(), n) || Failed(n, |old(unremoved)|)
      ensures ok ==> |NonStopped(rows)| <= faults - old(faults)
      ensures ok && faults == old(faults) ==>
        && (forall n :: n in machines ==> !IsLayer(n))
        && (forall c :: c in rows ==> rows[c] == STOPPED)
    {
      hide IsRun, Sound, OpStep, RepairStep, OwnedByHandled, AskedFor, LeftToRepair, OnlyShrank, AllDown, Inv, NamesOf;
      ghost var start := W();
      var pending, listed := Survey();
      if listed.ListFailed? {
        return false;
      }
      var handled := RepairCharts(pending, NamesOf(listed.all), start);
      ghost var was := |unremoved|;
      RemoveOrphans(listed.all, handled, start);
      LoggedBefore(unremoved, was, |old(unremoved)|);
      ChartsRepaired(start, W(), handled);
      StartServing(handled);
      ok := true;
      if PrefixFree(ids) && forall n :: n in machines ==> !IsLayer(n) {
        CleanHostIsSound(ids, W());
      }
    }
  }
}
