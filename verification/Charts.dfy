/// Charts by reference (internal/persistence/charts.go, runner.go): rows are keyed by
/// chart ID but looked up by name, namespace, maintainer and schema version, and saving
/// a chart again replaces its row. Encoding a chart and decoding it is the identity here.
module Charts {
  import opened Names
  import opened Lifecycle
  import opened Orchestrator
  import P = Preflight

  datatype Ref = Ref(name: string, namespace: string, maintainer: string, schemaVersion: string)

  datatype Version = Version(ref: Ref, chart: P.Chart)
  {
    function Id(): string {
      chart.id
    }
  }

  type Table = map<string, Version>

  /** The table after these saves. */
  function Saved(saves: seq<Version>): Table {
    if saves == [] then map[]
    else
      var last := saves[|saves| - 1];
      Saved(saves[..|saves| - 1])[last.Id() := last]
  }

  /** The save at i is the latest of its chart. */
  predicate Latest(saves: seq<Version>, i: nat) {
    i < |saves| && forall j :: i < j < |saves| ==> saves[j].Id() != saves[i].Id()
  }

  /** A lookup by this reference may yield this version. */
  predicate Answers(table: Table, ref: Ref, v: Version) {
    v.Id() in table && table[v.Id()] == v && v.ref == ref
  }

  lemma OneMoreSave(saves: seq<Version>, v: Version)
    ensures Saved(saves + [v]) == Saved(saves)[v.Id() := v]
  {
  }

  lemma {:induction false} LatestIsSaved(saves: seq<Version>, i: nat)
    requires Latest(saves, i)
    ensures saves[i].Id() in Saved(saves) && Saved(saves)[saves[i].Id()] == saves[i]
  {
    var n := |saves| - 1;
    if i < n {
      assert saves[n].Id() != saves[i].Id();
      assert Latest(saves[..n], i);
      LatestIsSaved(saves[..n], i);
    }
  }

  lemma {:induction false} SavedIsLatest(saves: seq<Version>, id: string) returns (i: nat)
    requires id in Saved(saves)
    ensures Latest(saves, i) && saves[i] == Saved(saves)[id] && saves[i].Id() == id
  {
    var n := |saves| - 1;
    if saves[n].Id() == id {
      i := n;
    } else {
      i := SavedIsLatest(saves[..n], id);
    }
  }

  /** A lookup yields the latest save of a chart or nothing: a version that was saved over
      is out of reach, under its own reference too. */
  lemma LookupIsLatest(saves: seq<Version>, ref: Ref, v: Version)
    ensures Answers(Saved(saves), ref, v) <==> exists i: nat :: Latest(saves, i) && saves[i] == v && v.ref == ref
  {
    if Answers(Saved(saves), ref, v) {
      var i := SavedIsLatest(saves, v.Id());
      assert Latest(saves, i);
    }
    if i: nat :| Latest(saves, i) && saves[i] == v && v.ref == ref {
      LatestIsSaved(saves, i);
    }
  }

  /** Saving a chart under a new reference leaves nothing under the old one, unless another
      chart ID holds it as well: only then does the old reference still work. */
  lemma SavedOverExactly(saves: seq<Version>, was: Version, v: Version)
    requires Answers(Saved(saves), was.ref, was) && v.Id() == was.Id() && v.ref != was.ref
    ensures (exists w :: Answers(Saved(saves + [v]), was.ref, w)) <==>
            (exists w :: Answers(Saved(saves), was.ref, w) && w.Id() != was.Id())
  {
    OneMoreSave(saves, v);
    hide Saved;
    if w :| Answers(Saved(saves + [v]), was.ref, w) {
      assert Answers(Saved(saves), was.ref, w);
    }
    if w :| Answers(Saved(saves), was.ref, w) && w.Id() != was.Id() {
      assert Answers(Saved(saves + [v]), was.ref, w);
    }
  }

  /** It may: a reference that two charts were saved with still finds the second after the
      first has moved on. */
  lemma OldReferenceStillWorks(a: P.Chart, b: P.Chart, ref: Ref, newer: Ref)
    requires a.id != b.id && ref != newer
    ensures var saves := [Version(ref, a), Version(ref, b), Version(newer, a)];
            Answers(Saved(saves), ref, Version(ref, b)) && !Answers(Saved(saves), ref, Version(ref, a))
  {
    var saves := [Version(ref, a), Version(ref, b), Version(newer, a)];
    assert Latest(saves, 1) && Latest(saves, 2);
    LatestIsSaved(saves, 1);
    LatestIsSaved(saves, 2);
  }

  // ---- Starting and killing by reference ----

  /** The start of chart c has succeeded in step i, with this layer booted. */
  ghost predicate StartedAt(run: seq<Sys>, i: nat, c: string, layer: string) {
    && i + 1 < |run| && OpMoves(run[i], run[i + 1], c) && run[i].ops[c].pc == MarkStarted
    && c in run[i + 1].world.rows && run[i + 1].world.rows[c] == STARTED
    && MachineName(c, layer) in run[i + 1].world.machines
  }

  /** The kill of chart d has succeeded in the last step. */
  ghost predicate EndsKilled(run: seq<Sys>, d: string) {
    var n := |run| - 1;
    && n >= 1 && OpMoves(run[n - 1], run[n], d) && run[n - 1].ops[d].pc == MarkStopped
    && d in run[n].world.rows && run[n].world.rows[d] == STOPPED
  }

  /** A machine that the start of c booted outlives a successful kill of d. */
  ghost predicate KillMisses(ids: set<string>, run: seq<Sys>, c: string, d: string, layer: string) {
    && IsRun(ids, run) && Init(run[0])
    && (exists i :: StartedAt(run, i, c, layer))
    && EndsKilled(run, d)
    && MachineName(c, layer) in run[|run| - 1].world.machines
  }

  /** Chart c is started with one layer; then chart d is killed. */
  function StartThenKill(c: string, d: string, layer: string): seq<Sys> {
    var ms := map[MachineName(c, layer) := RUNNING];
    var booted := World(map[c := STARTING], ms);
    var started := World(map[c := STARTED], ms);
    var stopping := World(map[c := STARTED, d := STOPPING], ms);
    var stopped := World(map[c := STARTED, d := STOPPED], ms);
    OneBoot(c, layer) +
    [ Sys(booted, Up, map[c := Op([layer], MarkStarted)]),
      Sys(started, Up, map[]),
      Sys(started, Up, map[d := Op([], MarkStopping)]),
      Sys(stopping, Up, map[d := Op([], Teardown(Listing))]),
      Sys(stopping, Up, map[d := Op([], Teardown(Stopping([])))]),
      Sys(stopping, Up, map[d := Op([], MarkStopped)]),
      Sys(stopped, Up, map[]) ]
  }

  lemma StartThenKillIsARun(ids: set<string>, c: string, d: string, layer: string)
    requires c in ids && d in ids && c != d && !Collide(c, d)
    ensures IsRun(ids, StartThenKill(c, d, layer)) && Init(StartThenKill(c, d, layer)[0])
  {
    var run, first := StartThenKill(c, d, layer), OneBoot(c, layer);
    OneBootIsARun(ids, c, layer);
    assert forall i :: 0 <= i <= 10 ==> run[i] == first[i];
    hide OneBoot;
    assert forall i :: 0 <= i < 10 ==> Next(ids, first[i], first[i + 1]);
    KillIsARun(ids, c, d, layer);
  }

  lemma KillIsARun(ids: set<string>, c: string, d: string, layer: string)
    requires c in ids && d in ids && c != d && !Collide(c, d)
    ensures var run := StartThenKill(c, d, layer);
            && |run| == 18
            && Next(ids, run[10], run[11]) && Next(ids, run[11], run[12]) && Next(ids, run[12], run[13])
            && Next(ids, run[13], run[14]) && Next(ids, run[14], run[15]) && Next(ids, run[15], run[16])
            && Next(ids, run[16], run[17])
  {
    var run := StartThenKill(c, d, layer);
    ChartIsolation(c, d, layer, "");
    assert OpMoves(run[10], run[11], c);
    assert OpMoves(run[11], run[12], c);
    assert OpArrives(ids, run[12], run[13], d);
    assert OpMoves(run[13], run[14], d);
    assert RemovalStep(d, run[14].world, Listing, run[15].world, More(Stopping([])));
    assert OpMoves(run[14], run[15], d);
    assert RemovalStep(d, run[15].world, Stopping([]), run[16].world, Cleared);
    assert OpMoves(run[15], run[16], d);
    assert OpMoves(run[16], run[17], d);
  }

  lemma KillLeavesNothing(ids: set<string>, run: seq<Sys>, d: string, layer: string)
    requires PrefixFree(ids) && IsRun(ids, run) && Init(run[0]) && EndsKilled(run, d)
    ensures MachineName(d, layer) !in run[|run| - 1].world.machines
  {
    var n := |run| - 1;
    MarksMeanQuiet(ids, run, n - 1, d);
    OwnsItsLayers(d, layer);
    assert Wrote(run[n - 1].world, run[n].world, d, STOPPED, false);
  }

  /** A kill can miss what a start booted exactly when it is another chart's. */
  lemma KillMissesExactly(ids: set<string>, c: string, d: string, layer: string)
    requires PrefixFree(ids) && c in ids && d in ids
    ensures (exists run :: KillMisses(ids, run, c, d, layer)) <==> c != d
  {
    if c != d {
      var run := StartThenKill(c, d, layer);
      StartThenKillIsARun(ids, c, d, layer);
      hide OneBoot, OpStep;
      KillIsARun(ids, c, d, layer);
      SeenInTheRun(ids, c, d, layer);
      assert KillMisses(ids, run, c, d, layer);
    } else {
      forall run: seq<Sys>
        ensures !KillMisses(ids, run, c, d, layer)
      {
        if IsRun(ids, run) && Init(run[0]) && EndsKilled(run, d) {
          KillLeavesNothing(ids, run, d, layer);
        }
      }
    }
  }

  lemma SeenInTheRun(ids: set<string>, c: string, d: string, layer: string)
    requires c in ids && d in ids && c != d && !Collide(c, d)
    ensures var run := StartThenKill(c, d, layer);
            StartedAt(run, 11, c, layer) && EndsKilled(run, d) && MachineName(c, layer) in run[17].world.machines
  {
    var run := StartThenKill(c, d, layer);
    assert OpMoves(run[11], run[12], c);
    assert OpMoves(run[16], run[17], d);
  }

  ghost predicate HasLayer(v: Version, layer: string) {
    exists e :: P.InChart(v.chart, e) && P.LayerOf(v.chart, e).id == layer
  }

  /** The start by this reference may take v and the kill w, and miss a layer of v. */
  ghost predicate Misses(ids: set<string>, table: Table, ref: Ref, v: Version, w: Version, layer: string) {
    && Answers(table, ref, v) && Answers(table, ref, w) && HasLayer(v, layer)
    && exists run :: KillMisses(ids, run, v.Id(), w.Id(), layer)
  }

  /** A successful kill by reference stops whatever a start by the same reference booted if
      and only if no chart with layers shares the reference with another chart ID. */
  lemma KillByReferenceExactly(ids: set<string>, table: Table, ref: Ref)
    requires PrefixFree(ids) && forall v :: Answers(table, ref, v) ==> v.Id() in ids
    ensures (exists v, w, layer :: Misses(ids, table, ref, v, w, layer)) <==>
            exists v, w, layer ::
              Answers(table, ref, v) && Answers(table, ref, w) && HasLayer(v, layer) && v.Id() != w.Id()
  {
    forall v, w, layer | Answers(table, ref, v) && Answers(table, ref, w) && HasLayer(v, layer)
      ensures Misses(ids, table, ref, v, w, layer) <==> v.Id() != w.Id()
    {
      KillMissesExactly(ids, v.Id(), w.Id(), layer);
    }
  }

  datatype Lookup = Found(version: Version) | NotPulled | NotRead

  class Runner {
    const host: Host
    var charts: Table
    ghost var saves: seq<Version>

    ghost predicate Valid()
      reads this, host
    {
      && host.Valid() && host.Now().mode.Up?
      && charts == Saved(saves)
      && forall i :: 0 <= i < |saves| ==> saves[i].Id() in host.ids
    }

    /** No operation is in flight on a chart this reference may stand for. */
    ghost predicate Unhandled(ref: Ref)
      reads this, host
      requires Valid()
    {
      forall v :: Answers(charts, ref, v) ==> v.Id() !in host.Now().ops
    }

    /** The table is that of the database, with whatever earlier processes have saved. */
    constructor (host: Host, charts: Table, ghost earlier: seq<Version>)
      requires host.Valid() && host.Now().mode.Up?
      requires charts == Saved(earlier) && forall i :: 0 <= i < |earlier| ==> earlier[i].Id() in host.ids
      ensures Valid() && this.host == host && saves == earlier
    {
      this.host, this.charts, saves := host, charts, earlier;
    }

    /** SaveChart: one upsert, which a reported failure may have made all the same. */
    method SaveChart(v: Version) returns (ok: bool)
      requires Valid() && v.Id() in host.ids
      modifies this`charts, this`saves, host`faults
      ensures Valid() && host.faults >= old(host.faults) && (ok <==> host.faults == old(host.faults))
      ensures saves == old(saves) + [v] || (!ok && saves == old(saves))
    {
      hide Saved;
      ok := *;
      var reached: bool := *;
      if ok || reached {
        OneMoreSave(saves, v);
        charts := charts[v.Id() := v];
        saves := saves + [v];
      }
      if !ok {
        host.faults := host.faults + 1;
      }
    }

    /** GetChartByRef: any one row that matches; nothing says there is but one. */
    method GetChartByRef(ref: Ref) returns (r: Lookup)
      requires Valid()
      modifies host`faults
      ensures Valid() && host.faults >= old(host.faults) && (r.NotRead? <==> host.faults > old(host.faults))
      ensures r.Found? ==> Answers(charts, ref, r.version)
      ensures r.NotPulled? ==> forall v :: !Answers(charts, ref, v)
    {
      var read: bool := *;
      if !read {
        host.faults := host.faults + 1;
        return NotRead;
      }
      var left := charts.Keys;
      while left != {}
        invariant left <= charts.Keys
        invariant forall v :: Answers(charts, ref, v) ==> v.Id() in left
        decreases left
      {
        var id :| id in left;
        if charts[id].ref == ref {
          ghost var _ := SavedIsLatest(saves, id);
          return Found(charts[id]);
        }
        left := left - {id};
      }
      r := NotPulled;
    }

    /** KillChart by reference. When it succeeds the chart it stood for is Stopped and no
        machine of any version ever saved under that chart's ID is left, whatever layers
        those versions had. */
    method KillChart(ref: Ref) returns (ok: bool, loaded: Lookup)
      requires Valid() && Unhandled(ref)
      modifies host`rows, host`machines, host`run, host`faults, host`unremoved
      ensures Valid()
      ensures loaded.Found? ==> Answers(charts, ref, loaded.version)
      ensures loaded.NotPulled? ==> forall v :: !Answers(charts, ref, v)
      ensures host.faults >= old(host.faults) && (host.faults == old(host.faults) ==> !loaded.NotRead?)
      ensures ok <==> loaded.Found? && host.faults == old(host.faults)
      ensures !loaded.Found? ==> host.W() == old(host.W())
      ensures ok ==>
        && var id := loaded.version.Id();
           && id in host.rows && host.rows[id] == STOPPED
           && forall v, e :: v in saves && v.Id() == id && P.InChart(v.chart, e) ==>
                MachineName(id, P.LayerOf(v.chart, e).id) !in host.machines
      ensures !ok && loaded.Found? ==>
        var id := loaded.version.Id();
        || (id in host.rows && host.rows[id] == STOPPED && Quiet(host.W(), id))
        || (id in host.rows && host.rows[id] == STOPPING)
        || Kept(old(host.W()), host.W(), id)
    {
      loaded := GetChartByRef(ref);
      if !loaded.Found? {
        return false, loaded;
      }
      ghost var _ := SavedIsLatest(saves, loaded.version.Id());
      ok := host.KillChart(loaded.version.chart);
    }

    /** InstantiateChart by reference: boots the layers of the latest version, whole or not
        at all. Without a fault it succeeds exactly for a reference that is found, of a chart
        that can be started and does not run. */
    method InstantiateChart(ref: Ref, answers: P.Entry -> P.Result<string>, setup: P.Setup, before: P.Fs, later: P.Fs)
      returns (r: Outcome, loaded: Lookup, ghost b: P.Boot, ghost entries: seq<P.Entry>, ghost read: bool,
               ghost seen: World)
      requires Valid() && Unhandled(ref) && "/" <= setup.imageDir
      modifies host`rows, host`machines, host`run, host`faults, host`unremoved, host`issued
      ensures Valid()
      ensures loaded.Found? ==> Answers(charts, ref, loaded.version)
      ensures loaded.NotPulled? ==> forall v :: !Answers(charts, ref, v)
      ensures host.faults >= old(host.faults) && (host.faults == old(host.faults) ==> !loaded.NotRead?)
      ensures !loaded.Found? ==>
        r.NotStarted? && host.W() == old(host.W()) && host.issued == old(host.issued)
      ensures loaded.Found? ==>
        var chart := loaded.version.chart;
        && P.AllEntries(chart, entries) && P.FitsSetup(b, chart, setup, later)
        && Ends(r, b, entries, old(host.W()), host.W(), old(host.issued), host.issued, host.faults - old(host.faults))
        && (read || host.faults > old(host.faults)) && (r.ChartRunning? <==> read && OwnRuns(seen, chart.id))
      ensures read ==> SeenIn(host.run, |old(host.run)| - 1, seen)
      ensures loaded.Found? && host.faults == old(host.faults) && !r.ChartRunning? ==>
        var chart := loaded.version.chart;
        && (r.NotStarted? <==> !P.Startable(chart, answers, before))
        && (r.Ok? <==> P.Startable(chart, answers, before) && P.AllSoftDeclared(chart))
      ensures r.Ok? || r.NotMarked? ==>
        && loaded.Found?
        && var chart := loaded.version.chart;
           && P.Startable(chart, answers, before) && P.ImagesOf(chart, answers, b.imageMap)
           && P.AllSoftDeclared(chart) && AsSetUp(chart, setup, b.imageMap, entries, old(host.issued), host.issued)
    {
      hide P.Startable, P.ImagesOf, P.AllSoftDeclared, P.AllEntries, AsSetUp, P.FitsSetup, Ends;
      loaded := GetChartByRef(ref);
      if !loaded.Found? {
        var none := P.Chart("", map[], map[], map[], map[]);
        b := P.Boot(none, map[], map[], later, setup.imageDir, setup.mqAddr, setup.volumeOf);
        r, entries, read, seen := NotStarted, [], false, host.W();
        return;
      }
      ghost var _ := SavedIsLatest(saves, loaded.version.Id());
      r, b, entries, read, seen := host.InstantiateChart(loaded.version.chart, answers, setup, before, later);
    }
  }
}
