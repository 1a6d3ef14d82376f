/// Image resolution as it is written (internal/resolver/images.go,
/// internal/resolver/utils.go, internal/persistence/images.go): methods that work on
/// the image directory, the build directory and the index one call at a time.
///
/// Between any two of them other resolutions move (`Pause`). The ghost field `run`
/// records every state, and each method keeps it a run of the transition system of
/// `ImageCache`, so what that module proves about runs holds of this code.
module ImageResolver {
  import opened ImageCache

  /** A step of anything but the resolution of build key b; the process stays up. */
  ghost predicate OthersMove(h: Hash, s: Cache, s': Cache, b: string) {
    || (exists d :: d != b && AttemptMoves(h, s, s', d))
    || (exists d :: d != b && Arrives(s, s', d))
    || (exists d :: d != b && Leaves(s, s', d))
  }

  ghost predicate OthersRan(h: Hash, run: seq<Cache>, from: nat, b: string) {
    forall i :: from <= i < |run| - 1 ==> OthersMove(h, run[i], run[i + 1], b)
  }

  /** What the resolution of b keeps while others move. */
  ghost predicate Kept(s: Cache, s': Cache, b: string) {
    && s'.mode == s.mode
    && (b in s.attempts <==> b in s'.attempts)
    && (b in s.attempts ==> s'.attempts[b] == s.attempts[b])
    && Grew(s.disk, s'.disk)
    && (b in s.keys <==> b in s'.keys)
    && (b in s.keys ==> s'.keys[b] == s.keys[b])
  }

  lemma OthersLeavePlace(h: Hash, s: Cache, s': Cache, b: string)
    requires OthersMove(h, s, s', b)
    ensures s'.mode == s.mode
    ensures b in s.attempts <==> b in s'.attempts
    ensures b in s.attempts ==> s'.attempts[b] == s.attempts[b]
    ensures b in s.keys <==> b in s'.keys
    ensures b in s.keys ==> s'.keys[b] == s.keys[b]
  {
    hide AttemptStep;
    if d :| d != b && AttemptMoves(h, s, s', d) {
      OthersLeaveRow(h, s, s', d, b);
    }
  }

  lemma OthersMoveKeeps(h: Hash, s: Cache, s': Cache, b: string)
    requires Injective(h) && Inv(h, s) && OthersMove(h, s, s', b)
    ensures Inv(h, s') && Kept(s, s', b) && Next(h, s, s')
  {
    OthersLeavePlace(h, s, s', b);
    hide Inv, Grew, AttemptMoves, Arrives, Leaves, Crashes, Sweeps;
    assert Next(h, s, s');
    NextKeepsInv(h, s, s');
    NextGrows(h, s, s');
  }

  lemma {:induction false} OthersKeep(h: Hash, run: seq<Cache>, from: nat, to: nat, b: string)
    requires Injective(h) && from <= to < |run| && OthersRan(h, run, from, b) && Inv(h, run[from])
    ensures Inv(h, run[to]) && Kept(run[from], run[to], b)
  {
    hide Inv, OthersMove;
    if from < to {
      OthersKeep(h, run, from, to - 1, b);
      assert OthersMove(h, run[to - 1], run[to - 1 + 1], b);
      OthersMoveKeeps(h, run[to - 1], run[to], b);
    }
  }

  /** From state `from` on, the resolution of b has not been at a clone or a package. */
  ghost predicate NotBuilding(run: seq<Cache>, from: nat, b: string) {
    forall i :: from <= i < |run| && b in run[i].attempts ==> !Building(run[i].attempts[b])
  }

  /** From state `from` on, the resolution of b has packaged a build. */
  ghost predicate Packaged(run: seq<Cache>, from: nat, b: string) {
    exists i :: from <= i < |run| && b in run[i].attempts && run[i].attempts[b].Pack?
  }

  /** From state `from` on, the resolution of b has not moved. */
  ghost predicate Stood(run: seq<Cache>, from: nat, b: string) {
    from < |run| && forall i :: from <= i < |run| ==>
      && (b in run[i].attempts <==> b in run[from].attempts)
      && (b in run[i].attempts ==> run[i].attempts[b] == run[from].attempts[b])
  }

  lemma StillNotBuilding(before: seq<Cache>, run: seq<Cache>, from: nat, b: string)
    requires before <= run && from < |before|
    requires NotBuilding(before, from, b) && NotBuilding(run, |before| - 1, b)
    ensures NotBuilding(run, from, b)
  {
    hide Building;
  }

  lemma StillPackaged(before: seq<Cache>, run: seq<Cache>, from: nat, later: nat, b: string)
    requires before <= run && from <= later
    ensures Packaged(before, from, b) ==> Packaged(run, from, b)
    ensures Packaged(run, later, b) ==> Packaged(run, from, b)
  {
  }

  lemma OffTheBuild(stage: string, r: Result)
    ensures !Building(DropStage(stage, r)) && !Building(Done(r)) && Drops(DropStage(stage, r), stage, Done(r))
  {
  }

  /** What a fetch was is not changed by what comes after it. */
  lemma Later(start: seq<Cache>, before: seq<Cache>, run: seq<Cache>, b: string)
    requires start <= before <= run && |start| > 0
    requires NotBuilding(run, |before| - 1, b)
    ensures NotBuilding(before, |start| - 1, b) ==> NotBuilding(run, |start| - 1, b)
    ensures Packaged(before, |start| - 1, b) ==> Packaged(run, |start| - 1, b)
  {
    if NotBuilding(before, |start| - 1, b) {
      StillNotBuilding(before, run, |start| - 1, b);
    }
    StillPackaged(before, run, |start| - 1, |start| - 1, b);
  }

  /** The states in which the resolution has not begun or is over add nothing. */
  lemma InBetween(start: seq<Cache>, entered: seq<Cache>, answered: seq<Cache>, run: seq<Cache>, b: string)
    requires start <= entered <= answered <= run
    requires |start| > 0 && |entered| == |start| + 1 && |run| == |answered| + 1
    requires b !in start[|start| - 1].attempts && b !in run[|run| - 1].attempts
    ensures NotBuilding(answered, |entered| - 1, b) ==> NotBuilding(run, |start| - 1, b)
    ensures Packaged(answered, |entered| - 1, b) ==> Packaged(run, |start| - 1, b)
  {
    hide Building;
    StillPackaged(answered, run, |start| - 1, |entered| - 1, b);
  }

  /** Some temporary directories are gone, and nothing else has changed but inside them. */
  ghost predicate OnlyTempGone(was: map<string, Tree>, now: map<string, Tree>) {
    && now.Keys <= was.Keys
    && forall n :: n in was && !IsTemp(n) ==> n in now && now[n] == was[n]
  }

  lemma OneSwept(start: map<string, Tree>, was: map<string, Tree>, now: map<string, Tree>, left: set<string>,
                 n: string)
    requires OnlyTempGone(start, was) && n in left && left <= was.Keys && (!IsTemp(n) ==> now == was)
    requires now - {n} == was - {n} && (n in now ==> n in was)
    ensures OnlyTempGone(start, now) && left - {n} <= now.Keys
    ensures n !in TempDirs(was) - left
    ensures TempDirs(now) - (left - {n})
         == TempDirs(was) - left + if IsTemp(n) && n in now then {n} else {}
  {
    Elsewhere(was, now, n);
    forall m
      ensures m in TempDirs(now) - (left - {n}) <==>
              m in TempDirs(was) - left || (m == n && IsTemp(n) && n in now)
    {
    }
  }

  lemma NothingSwept(bld: map<string, Tree>)
    ensures TempDirs(bld) - bld.Keys == {} && OnlyTempGone(bld, bld)
  {
  }

  lemma NoneLeft(bld: map<string, Tree>, kept: set<string>)
    requires kept == TempDirs(bld) - {}
    ensures TempDirs(bld) == kept
    ensures |kept| == 0 ==> forall n :: n in bld ==> !IsTemp(n)
  {
    assert forall n :: n in bld && IsTemp(n) ==> n in TempDirs(bld);
  }

  /** The deferred removals: which directory each is of, and what follows. */
  ghost predicate Drops(pc: Pc, dir: string, next: Pc) {
    match pc
    case DropTmp(stage, repo, tmp, good) => dir == tmp && next == DropPackage(stage, repo, good)
    case DropRepo(stage, repo, good) =>
      dir == repo && next == if good then HashStage(stage) else DropStage(stage, Failed)
    case DropStage(stage, result) => dir == stage && next == Done(result)
    case _ => false
  }

  lemma TmpDrops(stage: string, repo: string, tmp: string, good: bool)
    ensures Drops(DropTmp(stage, repo, tmp, good), tmp, DropPackage(stage, repo, good))
  {
  }

  lemma RepoDrops(stage: string, repo: string, good: bool)
    ensures Drops(DropRepo(stage, repo, good), repo, if good then HashStage(stage) else DropStage(stage, Failed))
  {
  }

  lemma DropIsStep(h: Hash, s: Cache, s': Cache, b: string, dir: string, pc: Pc, next: Pc)
    requires Drops(pc, dir, next) && StoreSame(s, s') && Dropped(s, s', dir)
    requires s'.packages == s.packages && s'.strays == s.strays
    ensures AttemptStep(h, s, s', b, pc, next)
  {
    hide StoreSame, Dropped;
  }

  lemma PublishIsStep(h: Hash, s: Cache, s': Cache, b: string, stage: string, art: Artifacts, ok: bool)
    requires s'.images == s.images && s'.keys == s.keys && s'.packages == s.packages && s'.strays == s.strays
    requires if ok then Renamed(h, s, s', stage, art) else s'.disk == s.disk && DirsSame(s, s')
    ensures AttemptStep(h, s, s', b, Publish(stage, art), if ok then SyncDir(stage, art) else DropStage(stage, Failed))
  {
    hide Renamed, DirsSame;
  }

  lemma {:induction false} SmallerSet(s: set<string>, t: set<string>)
    requires s <= t
    ensures |s| <= |t|
  {
    if s != {} {
      var x :| x in s;
      SmallerSet(s - {x}, t - {x});
    }
  }

  /** One step after standing still. */
  lemma StepNotBuilding(before: seq<Cache>, run: seq<Cache>, from: nat, b: string)
    requires Stood(before, from, b) && b in before[from].attempts && !Building(before[from].attempts[b])
    requires |run| == |before| + 1 && before <= run
    requires b in run[|before|].attempts && !Building(run[|before|].attempts[b])
    ensures NotBuilding(run, from, b)
  {
    hide Building;
  }

  class BuildResolver {
    const hash: Hash

    var disk: map<string, Tree>
    var images: map<string, nat>
    var keys: map<string, string>
    var bld: map<string, Tree>
    var used: set<string>
    ghost var leftover: set<string>

    /** kraft's store of packages, and those of them nobody is going to remove. */
    var packages: set<string>
    ghost var strays: set<string>

    /** Every state the cache has been in. */
    ghost var run: seq<Cache>

    // How often a fetch was begun here, and how often a command, a read, a write or a
    // removal issued here failed.
    ghost var downloads: nat
    ghost var faults: nat

    ghost function State(attempts: map<string, Pc>): Cache
      reads this
    {
      Cache(disk, images, keys, bld, used, leftover, packages, strays, attempts, Serving)
    }

    ghost function Now(): Cache
      reads this
      requires |run| > 0
    {
      run[|run| - 1]
    }

    ghost predicate Valid()
      reads this
    {
      && |run| > 0 && IsRun(hash, run)
      && Now() == State(Now().attempts)
      && Injective(hash) && Inv(hash, Now())
    }

    /** The resolution of b stands here. */
    ghost predicate At(b: string, pc: Pc)
      reads this
      requires |run| > 0
    {
      b in Now().attempts && Now().attempts[b] == pc
    }

    /** The first process over an empty cache; the build directory and kraft's store may
        hold anything, and are swept before it serves. */
    constructor (hash: Hash, bld: map<string, Tree>, packages: set<string>)
      requires Injective(hash)
      ensures Restarted() && Init(run[0]) && run == [Now()]
      ensures this.hash == hash && this.bld == bld && this.packages == packages
      ensures disk == map[] && images == map[] && keys == map[] && downloads == 0 && faults == 0
    {
      this.hash, this.bld, this.packages := hash, bld, packages;
      disk, images, keys := map[], map[], map[];
      used, leftover, strays := TempDirs(bld), TempDirs(bld), TempNames(packages);
      downloads, faults := 0, 0;
      var first :=
        Cache(map[], map[], map[], bld, TempDirs(bld), TempDirs(bld), packages, TempNames(packages), map[], Sweeping);
      run := [first];
      InitHasInv(hash, first);
    }

    // ---- Scheduling ----

    method Yield(ghost b: string)
      requires Valid()
      modifies this`disk, this`images, this`keys, this`bld, this`used
      modifies this`leftover, this`packages, this`strays, this`run
      ensures |run| > 0 && IsRun(hash, run) && old(run) <= run && Now() == State(Now().attempts)
      ensures OthersRan(hash, run, |old(run)| - 1, b)
    {
    }

    method Pause(ghost b: string)
      requires Valid()
      modifies this`disk, this`images, this`keys, this`bld, this`used
      modifies this`leftover, this`packages, this`strays, this`run
      ensures Valid() && old(run) <= run && Kept(old(Now()), Now(), b) && Stood(run, |old(run)| - 1, b)
    {
      ghost var from := |run| - 1;
      Yield(b);
      assert old(run)[from] == run[from];
      OthersKeep(hash, run, from, |run| - 1, b);
      hide Inv, IsRun, Grew, OthersRan;
      forall i | from <= i < |run|
        ensures Kept(run[from], run[i], b)
      {
        OthersKeep(hash, run, from, i, b);
      }
    }

    ghost method Record(next: Cache)
      requires |run| > 0 && IsRun(hash, run) && Injective(hash) && Inv(hash, Now())
      requires Next(hash, Now(), next) && next == State(next.attempts)
      modifies this`run
      ensures run == old(run) + [next] && Valid()
    {
      hide Inv, AttemptStep;
      var before := run;
      NextKeepsInv(hash, Now(), next);
      run := run + [next];
      forall i | 0 <= i < |run| - 1
        ensures Next(hash, run[i], run[i + 1])
      {
        if i < |before| - 1 {
          assert Next(hash, before[i], before[i + 1]);
        }
      }
    }

    /** The resolution of b has just taken this step. */
    ghost method Advance(b: string, next: Pc)
      requires |run| > 0 && IsRun(hash, run) && Injective(hash) && Inv(hash, Now())
      requires Now().mode.Serving? && b in Now().attempts
      requires AttemptStep(hash, Now(), State(Now().attempts[b := next]), b, Now().attempts[b], next)
      modifies this`run
      ensures Valid() && At(b, next) && run == old(run) + [Now()]
      ensures Stood(old(run), |old(run)| - 1, b)
    {
      hide Inv, AttemptStep;
      var s' := State(Now().attempts[b := next]);
      assert AttemptMoves(hash, Now(), s', b);
      Record(s');
    }

    // ---- The file system ----

    /** os.MkdirTemp: retries on a name already there and may give up. */
    method MkdirTemp() returns (made: Option<string>)
      modifies this`bld, this`used, this`faults
      ensures faults == old(faults) + (if made.Some? then 0 else 1)
      ensures made.None? ==> bld == old(bld) && used == old(used)
      ensures made.Some? ==>
        && IsTemp(made.value) && made.value !in old(used) && made.value !in old(bld)
        && bld == old(bld)[made.value := Tree(NO_FILES, false)] && used == old(used) + {made.value}
    {
      var name: string := *;
      if !IsTemp(name) || name in used || name in bld {
        faults := faults + 1;
        return None;
      }
      bld, used := bld[name := Tree(NO_FILES, false)], used + {name};
      made := Some(name);
    }

    /** os.RemoveAll: may leave all or part of the directory. */
    method RemoveAll(dir: string)
      modifies this`bld, this`leftover, this`faults
      ensures bld - {dir} == old(bld) - {dir} && (dir in bld ==> dir in old(bld))
      ensures leftover == if dir in bld then old(leftover) + {dir} else old(leftover)
      ensures faults == old(faults) + (if dir in bld then 1 else 0)
    {
      var fails: bool := *;
      var rest: Tree := *;
      if fails && dir in bld {
        bld := bld[dir := rest];
        leftover, faults := leftover + {dir}, faults + 1;
      } else {
        bld := bld - {dir};
      }
      assert bld - {dir} == old(bld) - {dir};
    }

    /** A command that writes into one directory: pull, clone and build, unpack. */
    method WriteInto(dir: string) returns (ok: bool)
      modifies this`bld, this`faults
      ensures faults == old(faults) + (if ok then 0 else 1)
      ensures bld - {dir} == old(bld) - {dir} && (dir in bld <==> dir in old(bld))
    {
      ok := *;
      var tree: Tree := *;
      if dir in bld {
        bld := bld[dir := tree];
      }
      if !ok {
        faults := faults + 1;
      }
      assert bld - {dir} == old(bld) - {dir};
    }

    // ---- Start-up (internal/resolver/reclaim.go) ----

    /** A process that has just started over what the last one left. */
    ghost predicate Restarted()
      reads this
    {
      && |run| > 0 && IsRun(hash, run)
      && Now() == State(map[]).(mode := Sweeping)
      && Injective(hash) && Inv(hash, Now())
    }

    /** The process dies, at any point of any resolution, and is started again. */
    ghost method Crash()
      requires Valid()
      modifies this`run, this`leftover, this`strays
      ensures Restarted() && old(run) < run
    {
      leftover, strays := TempDirs(bld), TempNames(packages);
      Append(State(map[]).(mode := Sweeping));
    }

    ghost method Append(next: Cache)
      requires |run| > 0 && IsRun(hash, run) && Injective(hash) && Inv(hash, Now()) && Next(hash, Now(), next)
      modifies this`run
      ensures |run| > 0 && IsRun(hash, run) && Inv(hash, Now()) && run == old(run) + [next]
    {
      hide Inv, AttemptStep;
      var before := run;
      NextKeepsInv(hash, Now(), next);
      run := run + [next];
      forall i | 0 <= i < |run| - 1
        ensures Next(hash, run[i], run[i + 1])
      {
        if i < |before| - 1 {
          assert Next(hash, before[i], before[i + 1]);
        }
      }
    }

    /** reclaimBuildDir: deletes every temporary directory of the runner and nothing else. A
        removal that fails is logged and skipped: each directory left had its own. */
    method ReclaimBuildDir() returns (ok: bool)
      requires Restarted()
      modifies this`bld, this`leftover, this`run, this`faults
      ensures Restarted() && old(run) <= run
      ensures !ok ==> bld == old(bld) && faults == old(faults) + 1
      ensures ok ==> faults == old(faults) + |TempDirs(bld)|
      ensures ok && faults == old(faults) ==> forall n :: n in bld ==> !IsTemp(n)
      ensures OnlyTempGone(old(bld), bld)
    {
      hide Inv, IsRun, TempDirs, OnlyTempGone;
      NothingSwept(bld);
      ok := *; // os.ReadDir
      if !ok {
        faults := faults + 1;
        return;
      }
      hide Restarted;
      var left := bld.Keys;
      ghost var kept: set<string> := {};
      while left != {}
        invariant Restarted() && old(run) <= run
        invariant OnlyTempGone(old(bld), bld)
        invariant kept == TempDirs(bld) - left && faults == old(faults) + |kept|
        invariant left <= bld.Keys
        decreases left
      {
        var n :| n in left;
        ghost var was := bld;
        if IsTemp(n) {
          SweepOne(n);
        }
        OneSwept(old(bld), was, bld, left, n);
        left := left - {n};
        kept := if IsTemp(n) && n in bld then kept + {n} else kept;
      }
      NoneLeft(bld, kept);
    }

    method SweepOne(n: string)
      requires Restarted() && n in bld && IsTemp(n)
      modifies this`bld, this`leftover, this`run, this`faults
      ensures Restarted() && old(run) <= run
      ensures bld - {n} == old(bld) - {n} && (n in bld ==> n in old(bld))
      ensures faults == old(faults) + (if n in bld then 1 else 0)
    {
      AllAbandoned();
      hide Inv, IsRun;
      RemoveAll(n);
      leftover := if n in bld then leftover else leftover - {n};
      Elsewhere(old(bld), bld, n);
      assert Swept(Now(), State(map[]).(mode := Sweeping), n);
      Append(State(map[]).(mode := Sweeping));
    }

    lemma AllAbandoned()
      requires Restarted()
      ensures leftover == TempDirs(bld)
    {
    }

    /** kraft pkg remove. */
    method RemovePackage(name: string) returns (ok: bool)
      modifies this`packages, this`faults
      ensures faults == old(faults) + (if ok then 0 else 1)
      ensures packages == old(packages) || packages == old(packages) - {name}
      ensures ok ==> name !in packages
    {
      ok := *;
      var reached: bool := *;
      if ok || reached {
        packages := packages - {name};
      }
      if !ok {
        faults := faults + 1;
      }
    }

    method SweepPackage(name: string)
      requires Restarted() && IsTemp(name)
      modifies this`packages, this`strays, this`run, this`faults
      ensures Restarted() && old(run) <= run
      ensures faults >= old(faults) + (if name in packages then 1 else 0)
      ensures packages == old(packages) || packages == old(packages) - {name}
    {
      hide Inv, IsRun;
      var _ := RemovePackage(name);
      if name in old(packages) {
        strays := if name in packages then strays else strays - {name};
        assert SweptPackage(Now(), State(map[]).(mode := Sweeping), name);
        Append(State(map[]).(mode := Sweeping));
      }
    }

    /** reclaimPackages: asks for the removal of each of the resolver's packages once, though
        a listing names a package once per platform, and of no other. A failure is logged and
        skipped: each package left had its own. `listing` is what kraft pkg ls prints, when it
        can be read. */
    method ReclaimPackages(listing: Option<seq<string>>) returns (asked: seq<string>)
      requires Restarted() && (listing.Some? ==> forall p :: p in listing.value <==> p in packages)
      modifies this`packages, this`strays, this`run, this`faults
      ensures Restarted() && old(run) <= run && faults >= old(faults)
      ensures forall i, j :: 0 <= i < j < |asked| ==> asked[i] != asked[j]
      ensures forall p :: p in asked <==> listing.Some? && p in listing.value && IsTemp(p)
      ensures packages <= old(packages) && forall p :: p in old(packages) && !IsTemp(p) ==> p in packages
      ensures listing.Some? ==> |TempNames(packages)| <= faults - old(faults)
    {
      hide Inv, IsRun, Restarted;
      asked := [];
      if listing.None? {
        return;
      }
      var rows := listing.value;
      var seen: set<string> := {};
      ghost var kept: set<string> := {};
      for i := 0 to |rows|
        invariant Restarted() && old(run) <= run
        invariant forall p :: p in seen <==> p in asked
        invariant forall p :: p in asked <==> p in rows[..i] && IsTemp(p)
        invariant forall i, j :: 0 <= i < j < |asked| ==> asked[i] != asked[j]
        invariant packages <= old(packages) && forall p :: p in old(packages) && !IsTemp(p) ==> p in packages
        invariant |kept| <= faults - old(faults) && forall p :: p in asked && p in packages ==> p in kept
      {
        var name := rows[i];
        if IsTemp(name) && name !in seen {
          assert forall j :: 0 <= j < |asked| ==> asked[j] in asked;
          seen, asked := seen + {name}, asked + [name];
          SweepPackage(name);
          kept := if name in packages then kept + {name} else kept;
        }
      }
      assert rows[..|rows|] == rows;
      SmallerSet(TempNames(packages), kept);
    }

    /** Reclaim: the sweep of the build directory, which must be readable, then that of
        kraft's store; after it the process serves. Each directory and each package of the
        resolver's that is left had a failed removal of its own. */
    method Reclaim(listing: Option<seq<string>>) returns (ok: bool)
      requires Restarted() && (listing.Some? ==> forall p :: p in listing.value <==> p in packages)
      modifies this`bld, this`leftover, this`packages, this`strays, this`run, this`faults
      ensures old(run) <= run && (if ok then Valid() && Now().attempts == map[] else Restarted())
      ensures faults >= old(faults) && (!ok ==> faults > old(faults) && bld == old(bld))
      ensures ok && listing.Some? ==> |TempDirs(bld)| + |TempNames(packages)| <= faults - old(faults)
      ensures ok && faults == old(faults) ==> forall n :: n in bld ==> !IsTemp(n)
      ensures ok && listing.Some? && faults == old(faults) ==> forall p :: p in packages ==> !IsTemp(p)
      ensures OnlyTempGone(old(bld), bld) && packages <= old(packages)
      ensures forall p :: p in old(packages) && !IsTemp(p) ==> p in packages
    {
      hide Inv, IsRun;
      ok := ReclaimBuildDir();
      if !ok {
        return;
      }
      var _ := ReclaimPackages(listing);
      Append(State(map[]));
      assert forall p :: p in packages && IsTemp(p) ==> p in TempNames(packages);
    }

    // ---- The index (internal/persistence/images.go) ----

    /** SaveImageMetadata: both upserts in one transaction. The images row of a content
        key already known keeps its size. A failed commit may still have taken effect. */
    method SaveImageMetadata(b: string, k: string, size: nat) returns (ok: bool)
      modifies this`images, this`keys, this`faults
      ensures faults == old(faults) + (if ok then 0 else 1)
      ensures
        || (images == (if k in old(images) then old(images) else old(images)[k := size]) && keys == old(keys)[b := k])
        || (!ok && images == old(images) && keys == old(keys))
    {
      var images0, keys0 := images, keys;
      var step: bool := *;
      if !step {
        faults := faults + 1;
        return false;
      }
      if k !in images {
        images := images[k := size];
      }
      step := *;
      if !step {
        images, faults := images0, faults + 1;
        return false;
      }
      keys := keys[b := k];
      ok := *;
      var committed: bool := *;
      if !ok && !committed {
        images, keys := images0, keys0;
      }
      if !ok {
        faults := faults + 1;
      }
    }

    // ---- Fetching ----

    lemma HasBegun()
      requires Valid()
      ensures |run| > 0
    {
    }

    /** The deferred removal of a temporary directory, then on to `next`. */
    method Drop(b: string, dir: string, ghost pc: Pc, ghost next: Pc)
      requires Valid() && At(b, pc)
      requires Drops(pc, dir, next)
      modifies this`disk, this`images, this`keys, this`bld, this`used
      modifies this`leftover, this`packages, this`strays, this`run, this`faults
      ensures Valid() && old(run) <= run
      ensures faults >= old(faults)
      ensures !Building(pc) && !Building(next) ==> NotBuilding(run, |old(run)| - 1, b)
      ensures At(b, next) && Kept(old(Now()).(attempts := map[]), Now().(attempts := map[]), b)
    {
      hide Inv, IsRun, NotBuilding, Stood, Grew, Injective, AttemptStep;
      ghost var from := |run| - 1;
      Pause(b);
      RemoveAll(dir);
      DropIsStep(hash, Now(), State(Now().attempts[b := next]), b, dir, pc, next);
      Advance(b, next);
      if !Building(pc) && !Building(next) {
        StepNotBuilding(run[..|run| - 1], run, from, b);
      }
    }

    /** packageLayer: the package kraft builds, named after the stage, is removed again on
        every path once it was stored; a build that fails half-way may leave it. */
    method PackageLayer(b: string, stage: string, repo: string) returns (ok: bool)
      requires Valid() && At(b, ImageCache.Pack(stage, repo))
      modifies this`disk, this`images, this`keys, this`bld, this`used
      modifies this`leftover, this`packages, this`strays, this`run, this`faults
      ensures Valid() && old(run) <= run && At(b, DropRepo(stage, repo, ok))
      ensures faults >= old(faults) && (!ok ==> faults > old(faults))
    {
      hide *;
      ok := Pack(b, stage, repo);
      if !ok {
        return;
      }
      ok := Export(b, stage, repo);
      if ok {
        ok := ExtractPackage(b, stage, repo);
      }
      DropPackage(b, stage, repo, ok);
    }

    method Pack(b: string, stage: string, repo: string) returns (ok: bool)
      requires Valid() && At(b, ImageCache.Pack(stage, repo))
      modifies this`disk, this`images, this`keys, this`bld, this`used
      modifies this`leftover, this`packages, this`strays, this`run, this`faults
      ensures Valid() && old(run) <= run
      ensures faults >= old(faults) && (!ok ==> faults > old(faults))
      ensures At(b, if ok then ImageCache.Export(stage, repo) else DropRepo(stage, repo, false))
    {
      hide Inv, IsRun;
      Pause(b);
      ok := *; // kraft pkg
      var stored: bool := *;
      if ok || stored {
        packages := packages + {stage};
      }
      if !ok {
        faults := faults + 1;
      }
      if !ok && stored {
        strays := strays + {stage};
      }
      Advance(b, if ok then ImageCache.Export(stage, repo) else DropRepo(stage, repo, false));
    }

    method Export(b: string, stage: string, repo: string) returns (ok: bool)
      requires Valid() && At(b, ImageCache.Export(stage, repo))
      modifies this`disk, this`images, this`keys, this`bld, this`used
      modifies this`leftover, this`packages, this`strays, this`run, this`faults
      ensures Valid() && old(run) <= run
      ensures faults >= old(faults) && (!ok ==> faults > old(faults))
      ensures At(b, if ok then MakeTmp(stage, repo) else ImageCache.DropPackage(stage, repo, false))
    {
      hide Inv, IsRun;
      Pause(b);
      ok := WriteInto(repo); // kraft pkg export
      Advance(b, if ok then MakeTmp(stage, repo) else ImageCache.DropPackage(stage, repo, false));
    }

    /** The deferred removal of the package. */
    method DropPackage(b: string, stage: string, repo: string, good: bool)
      requires Valid() && At(b, ImageCache.DropPackage(stage, repo, good))
      modifies this`disk, this`images, this`keys, this`bld, this`used
      modifies this`leftover, this`packages, this`strays, this`run, this`faults
      ensures Valid() && old(run) <= run && At(b, DropRepo(stage, repo, good))
      ensures faults >= old(faults)
    {
      hide Inv, IsRun;
      Pause(b);
      var _ := RemovePackage(stage);
      strays := if stage in packages then strays + {stage} else strays;
      Advance(b, DropRepo(stage, repo, good));
    }

    /** extractPackage: unpacked through a temporary directory that is removed on every path. */
    method ExtractPackage(b: string, stage: string, repo: string) returns (ok: bool)
      requires Valid() && At(b, MakeTmp(stage, repo))
      modifies this`disk, this`images, this`keys, this`bld, this`used
      modifies this`leftover, this`packages, this`strays, this`run, this`faults
      ensures Valid() && old(run) <= run && At(b, ImageCache.DropPackage(stage, repo, ok))
      ensures faults >= old(faults) && (!ok ==> faults > old(faults))
    {
      hide *;
      var made := MakeTmpDir(b, stage, repo);
      if made.None? {
        return false;
      }
      var tmp := made.value;
      ok := Unpack(b, stage, repo, tmp);
      TmpDrops(stage, repo, tmp, ok);
      Drop(b, tmp, DropTmp(stage, repo, tmp, ok), ImageCache.DropPackage(stage, repo, ok));
    }

    method MakeTmpDir(b: string, stage: string, repo: string) returns (made: Option<string>)
      requires Valid() && At(b, MakeTmp(stage, repo))
      modifies this`disk, this`images, this`keys, this`bld, this`used
      modifies this`leftover, this`packages, this`strays, this`run, this`faults
      ensures Valid() && old(run) <= run
      ensures faults >= old(faults) && (made.None? ==> faults > old(faults))
      ensures At(b, if made.Some? then Extract(stage, repo, made.value) else ImageCache.DropPackage(stage, repo, false))
    {
      hide Inv, IsRun;
      Pause(b);
      made := MkdirTemp();
      Advance(b, if made.Some? then Extract(stage, repo, made.value) else ImageCache.DropPackage(stage, repo, false));
    }

    method Unpack(b: string, stage: string, repo: string, tmp: string) returns (ok: bool)
      requires Valid() && At(b, Extract(stage, repo, tmp))
      modifies this`disk, this`images, this`keys, this`bld, this`used
      modifies this`leftover, this`packages, this`strays, this`run, this`faults
      ensures Valid() && old(run) <= run && At(b, DropTmp(stage, repo, tmp, ok))
      ensures faults >= old(faults) && (!ok ==> faults > old(faults))
    {
      hide Inv, IsRun;
      Pause(b);
      ok := WriteInto(stage);
      Advance(b, DropTmp(stage, repo, tmp, ok));
    }

    lemma AtPackage(from: nat, b: string, stage: string, repo: string)
      requires from < |run| && At(b, ImageCache.Pack(stage, repo))
      ensures Packaged(run, from, b)
    {
    }

    /** The part of downloadImage that clones and builds; the clone is removed on every path. */
    method BuildFromRepo(b: string, stage: string) returns (ok: bool)
      requires Valid() && At(b, MakeRepo(stage))
      modifies this`disk, this`images, this`keys, this`bld, this`used
      modifies this`leftover, this`packages, this`strays, this`run, this`faults
      ensures Valid() && old(run) <= run && At(b, if ok then HashStage(stage) else DropStage(stage, Failed))
      ensures ok ==> Packaged(run, |old(run)| - 1, b)
      ensures faults >= old(faults) && (!ok ==> faults > old(faults))
    {
      hide *;
      HasBegun();
      var made := MakeRepoDir(b, stage);
      if made.None? {
        return false;
      }
      var repo := made.value;
      ok := CloneAndBuild(b, stage, repo);
      if ok {
        AtPackage(|old(run)| - 1, b, stage, repo);
        ghost var built := run;
        ok := PackageLayer(b, stage, repo);
        StillPackaged(built, run, |old(run)| - 1, |old(run)| - 1, b);
      }
      ghost var packaged := run;
      RepoDrops(stage, repo, ok);
      Drop(b, repo, DropRepo(stage, repo, ok), if ok then HashStage(stage) else DropStage(stage, Failed));
      StillPackaged(packaged, run, |old(run)| - 1, |old(run)| - 1, b);
    }

    method MakeRepoDir(b: string, stage: string) returns (made: Option<string>)
      requires Valid() && At(b, MakeRepo(stage))
      modifies this`disk, this`images, this`keys, this`bld, this`used
      modifies this`leftover, this`packages, this`strays, this`run, this`faults
      ensures Valid() && old(run) <= run
      ensures faults >= old(faults) && (made.None? ==> faults > old(faults))
      ensures At(b, if made.Some? then Build(stage, made.value) else DropStage(stage, Failed))
    {
      hide Inv, IsRun;
      Pause(b);
      made := MkdirTemp();
      Advance(b, if made.Some? then Build(stage, made.value) else DropStage(stage, Failed));
    }

    method CloneAndBuild(b: string, stage: string, repo: string) returns (ok: bool)
      requires Valid() && At(b, Build(stage, repo))
      modifies this`disk, this`images, this`keys, this`bld, this`used
      modifies this`leftover, this`packages, this`strays, this`run, this`faults
      ensures Valid() && old(run) <= run
      ensures faults >= old(faults) && (!ok ==> faults > old(faults))
      ensures At(b, if ok then ImageCache.Pack(stage, repo) else DropRepo(stage, repo, false))
    {
      hide Inv, IsRun;
      Pause(b);
      ok := WriteInto(repo);
      Advance(b, if ok then ImageCache.Pack(stage, repo) else DropRepo(stage, repo, false));
    }

    /** The part of downloadImage that pulls. */
    method Pull(b: string, stage: string) returns (ok: bool)
      requires Valid() && At(b, Fetch(stage))
      modifies this`disk, this`images, this`keys, this`bld, this`used
      modifies this`leftover, this`packages, this`strays, this`run, this`faults
      ensures Valid() && old(run) <= run && At(b, if ok then HashStage(stage) else DropStage(stage, Failed))
      ensures faults >= old(faults) && (!ok ==> faults > old(faults))
      ensures NotBuilding(run, |old(run)| - 1, b)
    {
      hide Inv, IsRun, NotBuilding, Stood;
      ghost var from := |run| - 1;
      Pause(b);
      ok := WriteInto(stage);
      Advance(b, if ok then HashStage(stage) else DropStage(stage, Failed));
      StepNotBuilding(run[..|run| - 1], run, from, b);
    }

    /** buildFields: there must be a command to build with. */
    method HasCommand(b: string, stage: string, command: bool)
      requires Valid() && At(b, Fetch(stage))
      modifies this`disk, this`images, this`keys, this`bld, this`used
      modifies this`leftover, this`packages, this`strays, this`run, this`faults
      ensures Valid() && old(run) <= run && At(b, if command then MakeRepo(stage) else DropStage(stage, Failed))
      ensures faults == old(faults)
    {
      hide Inv, IsRun;
      Pause(b);
      Advance(b, if command then MakeRepo(stage) else DropStage(stage, Failed));
    }

    /** downloadImage: with a published image it pulls and does nothing else; otherwise, if
        there is a command to build with, it clones, builds and packages. Nothing but a fault
        or a missing command fails it. */
    method DownloadImage(b: string, stage: string, pulls: bool, command: bool) returns (ok: bool)
      requires Valid() && At(b, Fetch(stage))
      modifies this`disk, this`images, this`keys, this`bld, this`used
      modifies this`leftover, this`packages, this`strays, this`run, this`faults, this`downloads
      ensures Valid() && old(run) <= run && At(b, if ok then HashStage(stage) else DropStage(stage, Failed))
      ensures downloads == old(downloads) + 1
      ensures faults >= old(faults) && (!ok ==> faults > old(faults) || (!pulls && !command))
      ensures pulls ==> NotBuilding(run, |old(run)| - 1, b)
      ensures !pulls && ok ==> command && Packaged(run, |old(run)| - 1, b)
    {
      downloads := downloads + 1;
      assert |run| > 0 && Valid() && At(b, Fetch(stage));
      hide *;
      if pulls {
        ok := Pull(b, stage);
        return;
      }
      HasCommand(b, stage, command);
      if !command {
        return false;
      }
      ghost var known := run;
      ok := BuildFromRepo(b, stage);
      StillPackaged(known, run, |old(run)| - 1, |known| - 1, b);
    }

    // ---- Publishing ----

    /** generateContentKey over the staged artifacts; a file that cannot be read fails it. */
    method ContentKey(b: string, stage: string) returns (art: Option<Artifacts>)
      requires Valid() && At(b, HashStage(stage))
      modifies this`disk, this`images, this`keys, this`bld, this`used
      modifies this`leftover, this`packages, this`strays, this`run, this`faults
      ensures Valid() && old(run) <= run
      ensures faults >= old(faults) && (art.None? ==> faults > old(faults))
      ensures NotBuilding(run, |old(run)| - 1, b)
      ensures At(b, if art.Some? then Check(stage, art.value) else DropStage(stage, Failed))
    {
      hide Inv, IsRun, NotBuilding, Stood;
      ghost var from := |run| - 1;
      Pause(b);
      var readable: bool := *;
      if !readable || stage !in bld {
        faults := faults + 1;
        Advance(b, DropStage(stage, Failed));
        StepNotBuilding(run[..|run| - 1], run, from, b);
        return None;
      }
      art := Some(bld[stage].artifacts);
      Advance(b, Check(stage, art.value));
      StepNotBuilding(run[..|run| - 1], run, from, b);
    }

    /** os.Rename of the stage: an existing directory makes it fail, unless it is empty and
        appeared only after os.Rename had looked. */
    method Rename(stage: string, k: string)
      modifies this`disk, this`bld
      ensures
        || (stage in old(bld) && (k !in old(disk) || IsEmptyDir(old(disk)[k]))
            && disk == old(disk)[k := old(bld)[stage]] && bld == old(bld) - {stage})
        || ((stage !in old(bld) || k in old(disk)) && disk == old(disk) && bld == old(bld))
    {
      var raced: bool := *;
      if stage in bld && (k !in disk || (raced && IsEmptyDir(disk[k]))) {
        disk, bld := disk[k := bld[stage]], bld - {stage};
      }
    }

    /** The rename onto the content key's directory. */
    method Publish(b: string, stage: string, art: Artifacts) returns (ok: bool)
      requires Valid() && At(b, ImageCache.Publish(stage, art))
      modifies this`disk, this`images, this`keys, this`bld, this`used
      modifies this`leftover, this`packages, this`strays, this`run, this`faults
      ensures Valid() && old(run) <= run
      ensures faults >= old(faults) && (!ok ==> faults > old(faults))
      ensures NotBuilding(run, |old(run)| - 1, b)
      ensures At(b, if ok then SyncDir(stage, art) else DropStage(stage, Failed))
    {
      hide Inv, IsRun, NotBuilding, Stood, IsEmptyDir, Grew, Injective, AttemptStep;
      ghost var from := |run| - 1;
      Pause(b);
      ok := *; // syncTree, and the errors of rename other than a lost race
      if ok {
        Rename(stage, hash(art));
      } else {
        faults := faults + 1;
      }
      ghost var next := if ok then SyncDir(stage, art) else DropStage(stage, Failed);
      PublishIsStep(hash, Now(), State(Now().attempts[b := next]), b, stage, art, ok);
      Advance(b, next);
      StepNotBuilding(run[..|run| - 1], run, from, b);
    }

    method CheckAndPublish(b: string, stage: string, art: Artifacts) returns (ok: bool)
      requires Valid() && At(b, Check(stage, art))
      modifies this`disk, this`images, this`keys, this`bld, this`used
      modifies this`leftover, this`packages, this`strays, this`run, this`faults
      ensures Valid() && old(run) <= run
      ensures faults >= old(faults) && (!ok ==> faults > old(faults))
      ensures NotBuilding(run, |old(run)| - 1, b)
      ensures At(b, if ok then SaveIndex(stage, art) else DropStage(stage, Failed))
    {
      hide *;
      HasBegun();
      ghost var before := run;
      ok := IsPublished(b, stage, art);
      if ok {
        return;
      }
      ghost var checked := run;
      ok := Publish(b, stage, art);
      StillNotBuilding(checked, run, |before| - 1, b);
      if ok {
        ghost var published := run;
        ok := SyncImageDir(b, stage, art);
        StillNotBuilding(published, run, |before| - 1, b);
      }
    }

    method IsPublished(b: string, stage: string, art: Artifacts) returns (there: bool)
      requires Valid() && At(b, Check(stage, art))
      modifies this`disk, this`images, this`keys, this`bld, this`used
      modifies this`leftover, this`packages, this`strays, this`run, this`faults
      ensures Valid() && old(run) <= run
      ensures faults == old(faults)
      ensures NotBuilding(run, |old(run)| - 1, b)
      ensures At(b, if there then SaveIndex(stage, art) else ImageCache.Publish(stage, art))
    {
      hide Inv, IsRun, NotBuilding, Stood;
      ghost var from := |run| - 1;
      Pause(b);
      there := hash(art) in disk;
      Advance(b, if there then SaveIndex(stage, art) else ImageCache.Publish(stage, art));
      StepNotBuilding(run[..|run| - 1], run, from, b);
    }

    method SyncImageDir(b: string, stage: string, art: Artifacts) returns (ok: bool)
      requires Valid() && At(b, SyncDir(stage, art))
      modifies this`disk, this`images, this`keys, this`bld, this`used
      modifies this`leftover, this`packages, this`strays, this`run, this`faults
      ensures Valid() && old(run) <= run
      ensures faults >= old(faults) && (!ok ==> faults > old(faults))
      ensures NotBuilding(run, |old(run)| - 1, b)
      ensures At(b, if ok then SaveIndex(stage, art) else DropStage(stage, Failed))
    {
      hide Inv, IsRun, NotBuilding, Stood;
      ghost var from := |run| - 1;
      Pause(b);
      ok := *; // syncPath
      if !ok {
        faults := faults + 1;
      }
      Advance(b, if ok then SaveIndex(stage, art) else DropStage(stage, Failed));
      StepNotBuilding(run[..|run| - 1], run, from, b);
    }

    method Index(b: string, stage: string, art: Artifacts) returns (r: Result)
      requires Valid() && At(b, SaveIndex(stage, art))
      modifies this`disk, this`images, this`keys, this`bld, this`used
      modifies this`leftover, this`packages, this`strays, this`run, this`faults
      ensures Valid() && old(run) <= run && At(b, DropStage(stage, r))
      ensures faults >= old(faults) && (r.Failed? ==> faults > old(faults))
      ensures NotBuilding(run, |old(run)| - 1, b)
    {
      hide Inv, IsRun, NotBuilding, Stood;
      ghost var from := |run| - 1;
      Pause(b);
      var ok := SaveImageMetadata(b, hash(art), Size(art));
      r := if ok then Key(hash(art)) else Failed;
      Advance(b, DropStage(stage, r));
      StepNotBuilding(run[..|run| - 1], run, from, b);
    }

    // ---- resolveImage ----

    method LookUp(b: string) returns (r: Option<Result>)
      requires Valid() && At(b, Lookup)
      modifies this`disk, this`images, this`keys, this`bld, this`used
      modifies this`leftover, this`packages, this`strays, this`run, this`faults
      ensures Valid() && old(run) <= run
      ensures faults >= old(faults) && (r == Some(Failed) ==> faults > old(faults))
      ensures r.Some? && r.value.Key? ==> Hits(keys, disk, b, r.value.key)
      ensures NotBuilding(run, |old(run)| - 1, b)
      ensures At(b, if r.Some? then Done(r.value) else MakeStage)
      ensures old(b in keys && Hits(keys, disk, b, keys[b])) ==>
        Hits(keys, disk, b, old(keys[b])) && (r == Some(Failed) || r == Some(Key(old(keys[b]))))
    {
      hide Inv, IsRun, NotBuilding, Stood;
      ghost var from := |run| - 1;
      Pause(b);
      var read: bool := *; // GetContentKeyByBuildKey
      if !read {
        faults := faults + 1;
        Advance(b, Done(Failed));
        StepNotBuilding(run[..|run| - 1], run, from, b);
        return Some(Failed);
      }
      if b in keys && keys[b] != "" && HasKernel(disk, keys[b]) {
        Advance(b, Done(Key(keys[b])));
        StepNotBuilding(run[..|run| - 1], run, from, b);
        return Some(Key(keys[b]));
      }
      Advance(b, MakeStage);
      StepNotBuilding(run[..|run| - 1], run, from, b);
      r := None;
    }

    method Stage(b: string) returns (made: Option<string>)
      requires Valid() && At(b, MakeStage)
      modifies this`disk, this`images, this`keys, this`bld, this`used
      modifies this`leftover, this`packages, this`strays, this`run, this`faults
      ensures Valid() && old(run) <= run
      ensures faults >= old(faults) && (made.None? ==> faults > old(faults))
      ensures NotBuilding(run, |old(run)| - 1, b)
      ensures At(b, if made.Some? then Fetch(made.value) else Done(Failed))
    {
      hide Inv, IsRun, NotBuilding, Stood;
      ghost var from := |run| - 1;
      Pause(b);
      made := MkdirTemp();
      Advance(b, if made.Some? then Fetch(made.value) else Done(Failed));
      StepNotBuilding(run[..|run| - 1], run, from, b);
    }

    ghost method Enter(b: string)
      requires Valid() && b !in Now().attempts
      modifies this`run
      ensures Valid() && At(b, Lookup) && run == old(run) + [Now()]
    {
      var next := State(Now().attempts[b := Lookup]);
      assert Arrives(Now(), next, b);
      Record(next);
    }

    ghost method Leave(b: string, r: Result)
      requires Valid() && At(b, Done(r))
      modifies this`run
      ensures Valid() && b !in Now().attempts && run == old(run) + [Now()]
    {
      var next := State(Now().attempts - {b});
      assert Leaves(Now(), next, b);
      Record(next);
    }

    /** The body singleflight runs for one build key. A key it returns is the row's, is
        indexed, and names a published directory that holds what the key says. If the row
        was settled before, nothing is fetched and no other key can be the answer. An answer
        without a fetch is that of a settled row; one with a fetch comes from a pull alone if
        the layer has an image, and from a package built otherwise. Nothing but a fault or a
        missing command fails it. */
    method ResolveImage(b: string, pulls: bool, command: bool) returns (r: Result)
      requires Valid() && b !in Now().attempts
      modifies this
      ensures Valid() && old(run) <= run && b !in Now().attempts
      ensures r.Key? ==>
        && b in keys && keys[b] == r.key && r.key in images
        && r.key in disk && hash(disk[r.key].artifacts) == r.key
      ensures old(b in keys && Hits(keys, disk, b, keys[b])) ==>
        downloads == old(downloads) && Hits(keys, disk, b, old(keys[b])) && (r == Failed || r == Key(old(keys[b])))
      ensures faults >= old(faults) && (r.Failed? ==> faults > old(faults) || (!pulls && !command))
      ensures downloads == old(downloads) || downloads == old(downloads) + 1
      ensures r.Key? && downloads == old(downloads) ==> Hits(keys, disk, b, r.key)
      ensures pulls || downloads == old(downloads) ==> NotBuilding(run, |old(run)| - 1, b)
      ensures r.Key? && !pulls && downloads > old(downloads) ==> command && Packaged(run, |old(run)| - 1, b)
    {
      hide Inv, IsRun, AttemptStep, HasKernel, NotBuilding, Packaged;
      Enter(b);
      ghost var entered := run;
      r := LookUpOrFetch(b, pulls, command);
      AnswerIsPublished(b, r);
      ghost var answered := run;
      Leave(b, r);
      InBetween(old(run), entered, answered, run, b);
    }

    method LookUpOrFetch(b: string, pulls: bool, command: bool) returns (r: Result)
      requires Valid() && At(b, Lookup)
      modifies this`disk, this`images, this`keys, this`bld, this`used
      modifies this`leftover, this`packages, this`strays, this`run, this`faults, this`downloads
      ensures Valid() && old(run) <= run && At(b, Done(r))
      ensures old(b in keys && Hits(keys, disk, b, keys[b])) ==>
        downloads == old(downloads) && Hits(keys, disk, b, old(keys[b])) && (r == Failed || r == Key(old(keys[b])))
      ensures faults >= old(faults) && (r.Failed? ==> faults > old(faults) || (!pulls && !command))
      ensures downloads == old(downloads) || downloads == old(downloads) + 1
      ensures r.Key? && downloads == old(downloads) ==> Hits(keys, disk, b, r.key)
      ensures pulls || downloads == old(downloads) ==> NotBuilding(run, |old(run)| - 1, b)
      ensures r.Key? && !pulls && downloads > old(downloads) ==> command && Packaged(run, |old(run)| - 1, b)
    {
      hide *;
      HasBegun();
      var looked := LookUp(b);
      if looked.Some? {
        r := looked.value;
      } else {
        ghost var missed := run;
        r := ResolveMiss(b, pulls, command);
        if pulls || downloads == old(downloads) {
          StillNotBuilding(missed, run, |old(run)| - 1, b);
        }
        StillPackaged(missed, run, |old(run)| - 1, |missed| - 1, b);
      }
    }

    method ResolveMiss(b: string, pulls: bool, command: bool) returns (r: Result)
      requires Valid() && At(b, MakeStage)
      modifies this`disk, this`images, this`keys, this`bld, this`used
      modifies this`leftover, this`packages, this`strays, this`run, this`faults, this`downloads
      ensures Valid() && old(run) <= run && At(b, Done(r))
      ensures faults >= old(faults) && (r.Failed? ==> faults > old(faults) || (!pulls && !command))
      ensures downloads == old(downloads) || downloads == old(downloads) + 1
      ensures r.Key? ==> downloads > old(downloads)
      ensures pulls || downloads == old(downloads) ==> NotBuilding(run, |old(run)| - 1, b)
      ensures r.Key? && !pulls ==> command && Packaged(run, |old(run)| - 1, b)
    {
      hide *;
      HasBegun();
      var made := Stage(b);
      if made.None? {
        return Failed;
      }
      ghost var staged := run;
      r := FetchAndIndex(b, made.value, pulls, command);
      if pulls {
        StillNotBuilding(staged, run, |old(run)| - 1, b);
      }
      StillPackaged(staged, run, |old(run)| - 1, |staged| - 1, b);
    }

    method FetchAndIndex(b: string, stage: string, pulls: bool, command: bool) returns (r: Result)
      requires Valid() && At(b, Fetch(stage))
      modifies this`disk, this`images, this`keys, this`bld, this`used
      modifies this`leftover, this`packages, this`strays, this`run, this`faults, this`downloads
      ensures Valid() && old(run) <= run && At(b, Done(r))
      ensures faults >= old(faults) && (r.Failed? ==> faults > old(faults) || (!pulls && !command))
      ensures downloads == old(downloads) + 1
      ensures pulls ==> NotBuilding(run, |old(run)| - 1, b)
      ensures r.Key? && !pulls ==> command && Packaged(run, |old(run)| - 1, b)
    {
      hide *;
      HasBegun();
      r := Failed;
      var ok := DownloadImage(b, stage, pulls, command);
      ghost var fetched := run;
      if ok {
        r := HashAndPublish(b, stage);
        Later(old(run), fetched, run, b);
      }
      ghost var published := run;
      OffTheBuild(stage, r);
      Drop(b, stage, DropStage(stage, r), Done(r));
      Later(old(run), published, run, b);
    }

    /** From the stage to the row. */
    method HashAndPublish(b: string, stage: string) returns (r: Result)
      requires Valid() && At(b, HashStage(stage))
      modifies this`disk, this`images, this`keys, this`bld, this`used
      modifies this`leftover, this`packages, this`strays, this`run, this`faults
      ensures Valid() && old(run) <= run && At(b, DropStage(stage, r))
      ensures faults >= old(faults) && (r.Failed? ==> faults > old(faults))
      ensures NotBuilding(run, |old(run)| - 1, b)
    {
      hide *;
      HasBegun();
      r := Failed;
      var art := ContentKey(b, stage);
      if art.None? {
        return;
      }
      ghost var hashed := run;
      var ok := CheckAndPublish(b, stage, art.value);
      StillNotBuilding(hashed, run, |old(run)| - 1, b);
      if ok {
        ghost var there := run;
        r := Index(b, stage, art.value);
        StillNotBuilding(there, run, |old(run)| - 1, b);
      }
    }

    lemma AnswerIsPublished(b: string, r: Result)
      requires Valid() && At(b, Done(r))
      ensures r.Key? ==>
        && b in keys && keys[b] == r.key && r.key in images
        && r.key in disk && hash(disk[r.key].artifacts) == r.key
    {
      hide IsRun, Owned, PackagesOwned;
      assert PcOk(hash, Now(), b, Done(r));
    }
  }
}
