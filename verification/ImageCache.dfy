/// The content-addressed image cache as a transition system
/// (internal/resolver/images.go, internal/resolver/utils.go,
/// internal/resolver/reclaim.go, internal/persistence/images.go).
///
/// Any number of resolutions run at once, at most one per build key (singleflight).
/// Each looks its key up, stages and fetches an image, hashes it, publishes the
/// staging directory under the content key by a rename, and indexes it. Every step
/// may fail, and the process may die between any two. What a build produces is not
/// determined by its build key. The hash is any function from artifacts to strings;
/// where it has to be injective, that is a hypothesis.
module ImageCache {
  datatype Option<T> = None | Some(value: T)

  type Bytes = seq<bv8>

  /** The files a content key covers. */
  datatype Artifacts = Artifacts(kernel: Option<Bytes>, initrd: Option<Bytes>)

  /** A directory: its artifacts, and whether it holds anything else. */
  datatype Tree = Tree(artifacts: Artifacts, other: bool)

  type Hash = Artifacts -> string

  const TEMP_PREFIX := "gp-"
  const NO_FILES := Artifacts(None, None)

  predicate IsTemp(name: string) {
    TEMP_PREFIX <= name
  }

  predicate IsEmptyDir(t: Tree) {
    t == Tree(NO_FILES, false)
  }

  function Size(a: Artifacts): nat {
    (if a.kernel.Some? then |a.kernel.value| else 0) + (if a.initrd.Some? then |a.initrd.value| else 0)
  }

  ghost predicate Injective(h: Hash) {
    forall a, b :: h(a) == h(b) ==> a == b
  }

  datatype Result = Key(key: string) | Failed

  /** Where a resolution stands. `good` says whether the fetch has succeeded so far;
      the deferred removals run on both paths. `art` is what was hashed. */
  datatype Pc =
    | Lookup
    | MakeStage
    | Fetch(stage: string)
    | MakeRepo(stage: string)
    | Build(stage: string, repo: string)
    | Pack(stage: string, repo: string)
    | Export(stage: string, repo: string)
    | MakeTmp(stage: string, repo: string)
    | Extract(stage: string, repo: string, tmp: string)
    | DropTmp(stage: string, repo: string, tmp: string, good: bool)
    | DropPackage(stage: string, repo: string, good: bool)
    | DropRepo(stage: string, repo: string, good: bool)
    | HashStage(stage: string)
    | Check(stage: string, art: Artifacts)
    | Publish(stage: string, art: Artifacts)
    | SyncDir(stage: string, art: Artifacts)
    | SaveIndex(stage: string, art: Artifacts)
    | DropStage(stage: string, result: Result)
    | Done(result: Result)

  datatype Mode = Sweeping | Serving

  /** `disk` is the image directory, `images` and `keys` the two tables of the index,
      `bld` the build directory. `used` are the temporary names ever handed out and
      `leftover` those abandoned by a crash or a failed removal. `packages` are the names
      in kraft's own store, and `strays` those of them nobody is going to remove. */
  datatype Cache = Cache(
    disk: map<string, Tree>,
    images: map<string, nat>,
    keys: map<string, string>,
    bld: map<string, Tree>,
    used: set<string>,
    leftover: set<string>,
    packages: set<string>,
    strays: set<string>,
    attempts: map<string, Pc>,
    mode: Mode)

  /** hasKernel: a non-empty kernel under the content key. */
  predicate HasKernel(disk: map<string, Tree>, k: string) {
    k in disk && disk[k].artifacts.kernel.Some? && disk[k].artifacts.kernel.value != []
  }

  /** The lookup of this build key hits, with this content key. */
  predicate Hits(keys: map<string, string>, disk: map<string, Tree>, b: string, k: string) {
    b in keys && keys[b] == k && k != "" && HasKernel(disk, k)
  }

  predicate Settled(s: Cache, b: string, k: string) {
    Hits(s.keys, s.disk, b, k)
  }

  // ---- Steps of one resolution ----

  /** os.MkdirTemp: a name never used before. */
  ghost predicate Made(s: Cache, s': Cache, n: string) {
    && IsTemp(n) && n !in s.used && n !in s.bld
    && s'.bld == s.bld[n := Tree(NO_FILES, false)]
    && s'.used == s.used + {n}
    && s'.leftover == s.leftover
  }

  ghost predicate DirsSame(s: Cache, s': Cache) {
    s'.bld == s.bld && s'.used == s.used && s'.leftover == s.leftover
  }

  ghost predicate StoreSame(s: Cache, s': Cache) {
    s'.disk == s.disk && s'.images == s.images && s'.keys == s.keys
  }

  /** os.RemoveAll, which may leave all or part of the directory behind. */
  ghost predicate Dropped(s: Cache, s': Cache, n: string) {
    && s'.bld - {n} == s.bld - {n}
    && (n in s'.bld ==> n in s.bld)
    && s'.used == s.used
    && s'.leftover == if n in s'.bld then s.leftover + {n} else s.leftover
  }

  /** The stage directory was written to; nothing else was. */
  ghost predicate Filled(s: Cache, s': Cache, stage: string) {
    && s'.bld - {stage} == s.bld - {stage}
    && (stage in s'.bld <==> stage in s.bld)
    && s'.used == s.used && s'.leftover == s.leftover
  }

  /** os.Rename of the stage onto the content key's directory. An existing directory makes
      it fail, which the caller takes as having lost a race; an empty one that appears only
      after os.Rename has looked is replaced. */
  ghost predicate Renamed(h: Hash, s: Cache, s': Cache, stage: string, art: Artifacts) {
    var k := h(art);
    || (stage in s.bld && (k !in s.disk || IsEmptyDir(s.disk[k])) && Moved(s, s', stage, k))
    || ((stage !in s.bld || k in s.disk) && s'.disk == s.disk && DirsSame(s, s'))
  }

  ghost predicate Moved(s: Cache, s': Cache, stage: string, k: string)
    requires stage in s.bld
  {
    && s'.disk == s.disk[k := s.bld[stage]]
    && s'.bld == s.bld - {stage}
    && s'.used == s.used && s'.leftover == s.leftover
  }

  /** kraft's package store. A resolution names the package it builds after its stage and
      removes it at the end; a build command that fails after storing it leaves it. */
  ghost predicate PackageStep(s: Cache, s': Cache, pc: Pc, next: Pc) {
    match pc
    case Pack(stage, _) =>
      if next.Export? then
        s'.packages == s.packages + {stage} && s'.strays == s.strays
      else
        || (s'.packages == s.packages && s'.strays == s.strays)
        || (s'.packages == s.packages + {stage} && s'.strays == s.strays + {stage})
    case DropPackage(stage, _, _) =>
      && (s'.packages == s.packages || s'.packages == s.packages - {stage})
      && s'.strays == if stage in s'.packages then s.strays + {stage} else s.strays
    case _ => s'.packages == s.packages && s'.strays == s.strays
  }

  /** SaveImageMetadata, one transaction: an existing images row keeps its size. */
  ghost predicate Saved(s: Cache, s': Cache, b: string, k: string, size: nat) {
    && s'.images == (if k in s.images then s.images else s.images[k := size])
    && s'.keys == s.keys[b := k]
  }

  ghost predicate AttemptStep(h: Hash, s: Cache, s': Cache, b: string, pc: Pc, next: Pc) {
    PackageStep(s, s', pc, next) && FileStep(h, s, s', b, pc, next)
  }

  ghost predicate FileStep(h: Hash, s: Cache, s': Cache, b: string, pc: Pc, next: Pc) {
    match pc
    case Lookup =>
      && DirsSame(s, s') && StoreSame(s, s')
      && (|| next == Done(Failed)
          || if b in s.keys && Settled(s, b, s.keys[b]) then next == Done(Key(s.keys[b])) else next == MakeStage)
    case MakeStage =>
      && StoreSame(s, s')
      && (|| (DirsSame(s, s') && next == Done(Failed))
          || (next.Fetch? && Made(s, s', next.stage)))
    case Fetch(stage) =>
      // pull writes the stage; otherwise the repository is cloned and built
      && StoreSame(s, s')
      && (|| (Filled(s, s', stage) && (next == HashStage(stage) || next == DropStage(stage, Failed)))
          || (DirsSame(s, s') && (next == MakeRepo(stage) || next == DropStage(stage, Failed))))
    case MakeRepo(stage) =>
      && StoreSame(s, s')
      && (|| (DirsSame(s, s') && next == DropStage(stage, Failed))
          || (next.Build? && next.stage == stage && Made(s, s', next.repo)))
    case Build(stage, repo) =>
      && StoreSame(s, s') && Filled(s, s', repo)
      && (next == Pack(stage, repo) || next == DropRepo(stage, repo, false))
    case Pack(stage, repo) =>
      && StoreSame(s, s') && DirsSame(s, s')
      && (next == Export(stage, repo) || next == DropRepo(stage, repo, false))
    case Export(stage, repo) =>
      && StoreSame(s, s') && Filled(s, s', repo)
      && (next == MakeTmp(stage, repo) || next == DropPackage(stage, repo, false))
    case MakeTmp(stage, repo) =>
      && StoreSame(s, s')
      && (|| (DirsSame(s, s') && next == DropPackage(stage, repo, false))
          || (next.Extract? && next.stage == stage && next.repo == repo && Made(s, s', next.tmp)))
    case Extract(stage, repo, tmp) =>
      && StoreSame(s, s') && Filled(s, s', stage)
      && (exists good :: next == DropTmp(stage, repo, tmp, good))
    case DropTmp(stage, repo, tmp, good) =>
      StoreSame(s, s') && Dropped(s, s', tmp) && next == DropPackage(stage, repo, good)
    case DropPackage(stage, repo, good) =>
      StoreSame(s, s') && DirsSame(s, s') && next == DropRepo(stage, repo, good)
    case DropRepo(stage, repo, good) =>
      && StoreSame(s, s') && Dropped(s, s', repo)
      && next == if good then HashStage(stage) else DropStage(stage, Failed)
    case HashStage(stage) =>
      && StoreSame(s, s') && DirsSame(s, s')
      && (|| next == DropStage(stage, Failed)
          || (stage in s.bld && next == Check(stage, s.bld[stage].artifacts)))
    case Check(stage, art) =>
      && StoreSame(s, s') && DirsSame(s, s')
      && next == if h(art) in s.disk then SaveIndex(stage, art) else Publish(stage, art)
    case Publish(stage, art) =>
      && s'.images == s.images && s'.keys == s.keys
      && (|| (s'.disk == s.disk && DirsSame(s, s') && next == DropStage(stage, Failed))
          || (Renamed(h, s, s', stage, art) && next == SyncDir(stage, art)))
    case SyncDir(stage, art) =>
      && StoreSame(s, s') && DirsSame(s, s')
      && (next == SaveIndex(stage, art) || next == DropStage(stage, Failed))
    case SaveIndex(stage, art) =>
      && s'.disk == s.disk && DirsSame(s, s')
      && (|| (Saved(s, s', b, h(art), Size(art)) && next == DropStage(stage, Key(h(art))))
          || (Saved(s, s', b, h(art), Size(art)) && next == DropStage(stage, Failed))
          || (StoreSame(s, s') && next == DropStage(stage, Failed)))
    case DropStage(stage, result) =>
      StoreSame(s, s') && Dropped(s, s', stage) && next == Done(result)
    case Done(_) => false
  }

  // ---- The whole system ----

  ghost predicate AttemptMoves(h: Hash, s: Cache, s': Cache, b: string) {
    && s.mode.Serving? && s'.mode == s.mode
    && b in s.attempts && b in s'.attempts
    && s'.attempts == s.attempts[b := s'.attempts[b]]
    && AttemptStep(h, s, s', b, s.attempts[b], s'.attempts[b])
  }

  ghost predicate Arrives(s: Cache, s': Cache, b: string) {
    && s.mode.Serving? && b !in s.attempts
    && s' == s.(attempts := s.attempts[b := Lookup])
  }

  ghost predicate Leaves(s: Cache, s': Cache, b: string) {
    && s.mode.Serving? && b in s.attempts && s.attempts[b].Done?
    && s' == s.(attempts := s.attempts - {b})
  }

  function TempDirs(bld: map<string, Tree>): set<string> {
    set n | n in bld && IsTemp(n)
  }

  function TempNames(names: set<string>): set<string> {
    set n | n in names && IsTemp(n)
  }

  /** The process dies; what its resolutions had in the build directory is abandoned. */
  ghost predicate Crashes(s: Cache, s': Cache) {
    s' == s.(attempts := map[], mode := Sweeping, leftover := TempDirs(s.bld), strays := TempNames(s.packages))
  }

  /** Reclaim at start-up: the removal of one leftover is tried, or the sweep is over. */
  ghost predicate Sweeps(s: Cache, s': Cache) {
    && s.mode.Sweeping?
    && (|| (exists n :: n in s.bld && IsTemp(n) && Swept(s, s', n))
        || (exists n :: n in s.packages && IsTemp(n) && SweptPackage(s, s', n))
        || s' == s.(mode := Serving))
  }

  ghost predicate Swept(s: Cache, s': Cache, n: string) {
    && s'.bld - {n} == s.bld - {n}
    && s' == s.(bld := s'.bld, leftover := if n in s'.bld then s.leftover else s.leftover - {n})
  }

  ghost predicate SweptPackage(s: Cache, s': Cache, n: string) {
    && (s'.packages == s.packages || s'.packages == s.packages - {n})
    && s' == s.(packages := s'.packages, strays := if n in s'.packages then s.strays else s.strays - {n})
  }

  ghost predicate Next(h: Hash, s: Cache, s': Cache) {
    || (exists b :: AttemptMoves(h, s, s', b))
    || (exists b :: Arrives(s, s', b))
    || (exists b :: Leaves(s, s', b))
    || Crashes(s, s')
    || Sweeps(s, s')
  }

  /** First start: nothing published, nothing indexed; the build directory may hold anything. */
  ghost predicate Init(s: Cache) {
    && s.disk == map[] && s.images == map[] && s.keys == map[] && s.attempts == map[]
    && s.mode == Sweeping
    && s.leftover == TempDirs(s.bld) && s.leftover <= s.used
    && s.strays == TempNames(s.packages)
  }

  ghost predicate IsRun(h: Hash, run: seq<Cache>) {
    && |run| > 0
    && forall i :: 0 <= i < |run| - 1 ==> Next(h, run[i], run[i + 1])
  }

  // ---- The inductive invariant ----

  /** The temporary names a resolution still has to remove. */
  function Names(pc: Pc): set<string> {
    match pc
    case Lookup => {}
    case MakeStage => {}
    case Fetch(stage) => {stage}
    case MakeRepo(stage) => {stage}
    case Build(stage, repo) => {stage, repo}
    case Pack(stage, repo) => {stage, repo}
    case Export(stage, repo) => {stage, repo}
    case MakeTmp(stage, repo) => {stage, repo}
    case Extract(stage, repo, tmp) => {stage, repo, tmp}
    case DropTmp(stage, repo, tmp, _) => {stage, repo, tmp}
    case DropPackage(stage, repo, _) => {stage, repo}
    case DropRepo(stage, repo, _) => {stage, repo}
    case HashStage(stage) => {stage}
    case Check(stage, _) => {stage}
    case Publish(stage, _) => {stage}
    case SyncDir(stage, _) => {stage}
    case SaveIndex(stage, _) => {stage}
    case DropStage(stage, _) => {stage}
    case Done(_) => {}
  }

  /** The packages a resolution still has to remove. */
  function PackagesOf(pc: Pc): set<string> {
    match pc
    case Export(stage, _) => {stage}
    case MakeTmp(stage, _) => {stage}
    case Extract(stage, _, _) => {stage}
    case DropTmp(stage, _, _, _) => {stage}
    case DropPackage(stage, _, _) => {stage}
    case _ => {}
  }

  predicate Distinct(pc: Pc) {
    match pc
    case Build(stage, repo) => stage != repo
    case Pack(stage, repo) => stage != repo
    case Export(stage, repo) => stage != repo
    case DropPackage(stage, repo, _) => stage != repo
    case MakeTmp(stage, repo) => stage != repo
    case Extract(stage, repo, tmp) => stage != repo && tmp != stage && tmp != repo
    case DropTmp(stage, repo, tmp, _) => stage != repo && tmp != stage && tmp != repo
    case DropRepo(stage, repo, _) => stage != repo
    case _ => true
  }

  /** The resolution looked its key up, missed, and has not indexed anything yet. */
  predicate Missed(pc: Pc) {
    !pc.Lookup? && !pc.DropStage? && !pc.Done?
  }

  ghost predicate PcOk(h: Hash, s: Cache, b: string, pc: Pc) {
    && Distinct(pc)
    && (Missed(pc) && b in s.keys ==> !Settled(s, b, s.keys[b]))
    && PlaceOk(h, s, b, pc)
  }

  ghost predicate PlaceOk(h: Hash, s: Cache, b: string, pc: Pc) {
    match pc
    case Check(stage, art) => stage in s.bld && s.bld[stage].artifacts == art
    case Publish(stage, art) => stage in s.bld && s.bld[stage].artifacts == art
    case SyncDir(_, art) => h(art) in s.disk
    case SaveIndex(_, art) => h(art) in s.disk
    case DropStage(_, Key(k)) => b in s.keys && s.keys[b] == k
    case Done(Key(k)) => b in s.keys && s.keys[b] == k
    case _ => true
  }

  /** Every published directory holds what its name says. */
  ghost predicate Addressed(h: Hash, disk: map<string, Tree>) {
    forall k :: k in disk ==> h(disk[k].artifacts) == k
  }

  /** Every build key leads to an images row, and every images row to a published
      directory of the recorded size. */
  ghost predicate Indexed(s: Cache) {
    && (forall b :: b in s.keys ==> s.keys[b] in s.images)
    && (forall k :: k in s.images ==> k in s.disk && s.images[k] == Size(s.disk[k].artifacts))
  }

  /** Every temporary directory has exactly one owner, a resolution or the leftovers. */
  ghost predicate Owned(s: Cache) {
    && (forall n :: n in s.bld && IsTemp(n) ==> n in s.leftover || HasOwner(s, n))
    && (forall n :: n in s.leftover ==> n in s.bld && IsTemp(n) && n in s.used)
    && (forall b, n :: b in s.attempts && n in Names(s.attempts[b]) ==> n in s.used && n !in s.leftover && IsTemp(n))
    && (forall b, c, n ::
          b in s.attempts && c in s.attempts && n in Names(s.attempts[b]) && n in Names(s.attempts[c]) ==> b == c)
  }

  ghost predicate HasOwner(s: Cache, n: string) {
    exists b :: b in s.attempts && n in Names(s.attempts[b])
  }

  /** Every package of the resolver's belongs to a resolution or is a stray. */
  ghost predicate PackagesOwned(s: Cache) {
    forall p :: p in s.packages && IsTemp(p) ==> p in s.strays || HasPackager(s, p)
  }

  ghost predicate HasPackager(s: Cache, p: string) {
    exists b :: b in s.attempts && p in PackagesOf(s.attempts[b])
  }

  ghost predicate Inv(h: Hash, s: Cache) {
    && Addressed(h, s.disk)
    && Indexed(s)
    && Owned(s)
    && PackagesOwned(s)
    && (forall b :: b in s.attempts ==> PcOk(h, s, b, s.attempts[b]))
    && (s.mode.Sweeping? ==> s.attempts == map[])
  }

  // ---- Preservation ----

  /** A published directory stays, and keeps its artifacts; unless it was an empty
      directory it does not change at all. */
  ghost predicate Grew(disk: map<string, Tree>, disk': map<string, Tree>) {
    forall k :: k in disk ==>
      && k in disk'
      && disk'[k].artifacts == disk[k].artifacts
      && (!IsEmptyDir(disk[k]) ==> disk'[k] == disk[k])
  }

  lemma DiskGrows(h: Hash, s: Cache, s': Cache, b: string)
    requires Injective(h) && Inv(h, s) && AttemptMoves(h, s, s', b)
    ensures Grew(s.disk, s'.disk) && Addressed(h, s'.disk)
  {
    var pc := s.attempts[b];
    if pc.Publish? {
      var k := h(pc.art);
      assert PcOk(h, s, b, pc);
      if s'.disk != s.disk && k in s.disk {
        assert h(s.disk[k].artifacts) == h(pc.art);
      }
    }
  }

  lemma SavingKeepsIndex(s: Cache, s': Cache, b: string, k: string, size: nat)
    requires Indexed(s) && Saved(s, s', b, k, size) && s'.disk == s.disk
    requires k in s.disk && Size(s.disk[k].artifacts) == size
    ensures Indexed(s')
  {
  }

  lemma GrowthKeepsIndex(s: Cache, s': Cache)
    requires Indexed(s) && Grew(s.disk, s'.disk) && s'.images == s.images && s'.keys == s.keys
    ensures Indexed(s')
  {
  }

  lemma IndexKept(h: Hash, s: Cache, s': Cache, b: string)
    requires Injective(h) && Inv(h, s) && AttemptMoves(h, s, s', b)
    ensures Indexed(s')
  {
    DiskGrows(h, s, s', b);
    var pc := s.attempts[b];
    assert PcOk(h, s, b, pc);
    hide Owned, Indexed, Size, Grew, Missed, Settled, Distinct, Names;
    if s'.images == s.images && s'.keys == s.keys {
      GrowthKeepsIndex(s, s');
    } else {
      assert h(s.disk[h(pc.art)].artifacts) == h(pc.art);
      SavingKeepsIndex(s, s', b, h(pc.art), Size(pc.art));
    }
  }

  /** What a step may do to the build directory: touch its own names, hand out fresh ones. */
  ghost predicate OwnDirsOnly(s: Cache, s': Cache, b: string)
    requires b in s.attempts && b in s'.attempts
  {
    var mine := Names(s.attempts[b]) + Names(s'.attempts[b]);
    && (forall n :: n !in mine ==> (n in s.bld <==> n in s'.bld) && (n in s.bld ==> s'.bld[n] == s.bld[n]))
    && s.used <= s'.used && Names(s'.attempts[b]) <= s'.used + Names(s.attempts[b])
    && (forall n :: n in Names(s'.attempts[b]) && n !in Names(s.attempts[b]) ==> n !in s.used && IsTemp(n))
    && (forall n :: n in Names(s.attempts[b]) && n !in Names(s'.attempts[b]) ==> n in s'.bld ==> n in s'.leftover)
    && s.leftover <= s'.leftover <= s.leftover + (Names(s.attempts[b]) - Names(s'.attempts[b]))
    && (forall n :: n in s'.leftover && n !in s.leftover ==> n in s'.bld)
  }

  lemma Elsewhere(m: map<string, Tree>, m': map<string, Tree>, x: string)
    requires m - {x} == m' - {x}
    ensures forall n :: n != x ==> (n in m <==> n in m') && (n in m ==> m'[n] == m[n])
  {
    forall n | n != x
      ensures n in m <==> n in m'
      ensures n in m ==> m'[n] == m[n]
    {
      assert n in m <==> n in m - {x};
      assert n in m' <==> n in m' - {x};
      if n in m {
        assert (m - {x})[n] == (m' - {x})[n];
      }
    }
  }

  lemma FillingIsOwn(s: Cache, s': Cache, b: string, dir: string)
    requires b in s.attempts && b in s'.attempts
    requires Filled(s, s', dir) && dir in Names(s.attempts[b])
    requires Names(s'.attempts[b]) == Names(s.attempts[b])
    ensures OwnDirsOnly(s, s', b)
  {
    Elsewhere(s.bld, s'.bld, dir);
  }

  lemma DroppingIsOwn(s: Cache, s': Cache, b: string, dir: string)
    requires b in s.attempts && b in s'.attempts
    requires Dropped(s, s', dir) && dir in Names(s.attempts[b])
    requires Names(s'.attempts[b]) == Names(s.attempts[b]) - {dir}
    ensures OwnDirsOnly(s, s', b)
  {
    Elsewhere(s.bld, s'.bld, dir);
  }

  lemma MakingIsOwn(s: Cache, s': Cache, b: string, dir: string)
    requires b in s.attempts && b in s'.attempts
    requires Made(s, s', dir)
    requires Names(s'.attempts[b]) == Names(s.attempts[b]) + {dir}
    ensures OwnDirsOnly(s, s', b)
  {
  }

  /** On its way from the repository to the stage. */
  predicate Building(pc: Pc) {
    !Settling(pc) && !pc.Lookup? && !pc.MakeStage? && !pc.Fetch?
  }

  /** From the hash on. */
  predicate Settling(pc: Pc) {
    pc.HashStage? || pc.Check? || pc.Publish? || pc.SyncDir? || pc.SaveIndex? || pc.DropStage? || pc.Done?
  }

  lemma StepsInOwnDirs(h: Hash, s: Cache, s': Cache, b: string)
    requires AttemptMoves(h, s, s', b) && Distinct(s.attempts[b])
    ensures OwnDirsOnly(s, s', b)
  {
    var pc, next := s.attempts[b], s'.attempts[b];
    hide OwnDirsOnly, FileStep, PackageStep;
    if Building(pc) {
      BuildingIsOwn(h, s, s', b);
    } else if Settling(pc) {
      SettlingIsOwn(h, s, s', b);
    } else {
      FetchingIsOwn(h, s, s', b);
    }
  }

  lemma FetchingIsOwn(h: Hash, s: Cache, s': Cache, b: string)
    requires b in s.attempts && b in s'.attempts && FileStep(h, s, s', b, s.attempts[b], s'.attempts[b])
    requires !Building(s.attempts[b]) && !Settling(s.attempts[b])
    ensures OwnDirsOnly(s, s', b)
  {
    hide OwnDirsOnly;
    if s.attempts[b].MakeStage? && s'.attempts[b].Fetch? {
      MakingIsOwn(s, s', b, s'.attempts[b].stage);
    } else if DirsSame(s, s') {
      StayingIsOwn(s, s', b);
    } else {
      FillingIsOwn(s, s', b, s.attempts[b].stage);
    }
  }

  lemma BuildingIsOwn(h: Hash, s: Cache, s': Cache, b: string)
    requires b in s.attempts && b in s'.attempts && FileStep(h, s, s', b, s.attempts[b], s'.attempts[b])
    requires Building(s.attempts[b]) && Distinct(s.attempts[b])
    ensures OwnDirsOnly(s, s', b)
  {
    hide OwnDirsOnly;
    match s.attempts[b]
    case MakeRepo(_) =>
      if s'.attempts[b].Build? {
        MakingIsOwn(s, s', b, s'.attempts[b].repo);
      } else {
        StayingIsOwn(s, s', b);
      }
    case MakeTmp(_, _) =>
      if s'.attempts[b].Extract? {
        MakingIsOwn(s, s', b, s'.attempts[b].tmp);
      } else {
        StayingIsOwn(s, s', b);
      }
    case Build(_, repo) => FillingIsOwn(s, s', b, repo);
    case Export(_, repo) => FillingIsOwn(s, s', b, repo);
    case Extract(stage, _, _) => FillingIsOwn(s, s', b, stage);
    case DropTmp(_, _, tmp, _) => DroppingIsOwn(s, s', b, tmp);
    case DropRepo(_, repo, _) => DroppingIsOwn(s, s', b, repo);
    case Pack(_, _) => StayingIsOwn(s, s', b);
    case DropPackage(_, _, _) => StayingIsOwn(s, s', b);
  }

  lemma SettlingIsOwn(h: Hash, s: Cache, s': Cache, b: string)
    requires b in s.attempts && b in s'.attempts && FileStep(h, s, s', b, s.attempts[b], s'.attempts[b])
    requires Settling(s.attempts[b])
    ensures OwnDirsOnly(s, s', b)
  {
    hide OwnDirsOnly;
    match s.attempts[b]
    case DropStage(stage, _) => DroppingIsOwn(s, s', b, stage);
    case Publish(stage, _) =>
      if DirsSame(s, s') {
        StayingIsOwn(s, s', b);
      } else {
        PublishingIsOwn(s, s', b, stage);
      }
    case HashStage(_) => StayingIsOwn(s, s', b);
    case Check(_, _) => StayingIsOwn(s, s', b);
    case SyncDir(_, _) => StayingIsOwn(s, s', b);
    case SaveIndex(_, _) => StayingIsOwn(s, s', b);
    case Done(_) =>
  }

  lemma StayingIsOwn(s: Cache, s': Cache, b: string)
    requires b in s.attempts && b in s'.attempts
    requires DirsSame(s, s') && Names(s'.attempts[b]) == Names(s.attempts[b])
    ensures OwnDirsOnly(s, s', b)
  {
  }

  lemma PublishingIsOwn(s: Cache, s': Cache, b: string, stage: string)
    requires b in s.attempts && b in s'.attempts
    requires Names(s'.attempts[b]) == Names(s.attempts[b]) == {stage}
    requires s'.bld == s.bld - {stage} && s'.used == s.used && s'.leftover == s.leftover
    ensures OwnDirsOnly(s, s', b)
  {
  }

  lemma OwnersCover(s: Cache, s': Cache, b: string)
    requires Owned(s) && b in s.attempts && b in s'.attempts && OwnDirsOnly(s, s', b)
    requires s'.attempts == s.attempts[b := s'.attempts[b]]
    ensures forall n :: n in s'.bld && IsTemp(n) ==> n in s'.leftover || HasOwner(s', n)
  {
    forall n | n in s'.bld && IsTemp(n)
      ensures n in s'.leftover || HasOwner(s', n)
    {
      if n !in Names(s'.attempts[b]) && n !in Names(s.attempts[b]) && n !in s.leftover {
        var c :| c in s.attempts && n in Names(s.attempts[c]);
        assert c in s'.attempts && n in Names(s'.attempts[c]);
      }
    }
  }

  lemma OwnersUnique(s: Cache, s': Cache, b: string)
    requires Owned(s) && b in s.attempts && b in s'.attempts && OwnDirsOnly(s, s', b)
    requires s'.attempts == s.attempts[b := s'.attempts[b]]
    ensures forall c, d, n ::
      c in s'.attempts && d in s'.attempts && n in Names(s'.attempts[c]) && n in Names(s'.attempts[d]) ==> c == d
    ensures forall c, n :: c in s'.attempts && n in Names(s'.attempts[c]) ==>
          n in s'.used && n !in s'.leftover && IsTemp(n)
  {
  }

  lemma LeftoversThere(s: Cache, s': Cache, b: string)
    requires Owned(s) && b in s.attempts && b in s'.attempts && OwnDirsOnly(s, s', b)
    ensures forall n :: n in s'.leftover ==> n in s'.bld && IsTemp(n) && n in s'.used
  {
    hide Names, HasOwner;
  }

  lemma OwnershipKept(h: Hash, s: Cache, s': Cache, b: string)
    requires Owned(s) && AttemptMoves(h, s, s', b) && Distinct(s.attempts[b])
    ensures Owned(s')
  {
    hide AttemptStep, Distinct, OwnDirsOnly, HasOwner, Names;
    StepsInOwnDirs(h, s, s', b);
    OwnersCover(s, s', b);
    OwnersUnique(s, s', b);
    LeftoversThere(s, s', b);
  }

  lemma PackagesMove(h: Hash, s: Cache, s': Cache, b: string)
    requires AttemptMoves(h, s, s', b)
    ensures s.strays <= s'.strays
    ensures forall p :: p in s'.packages ==> p in s.packages || p in s'.strays || p in PackagesOf(s'.attempts[b])
    ensures forall p :: p in PackagesOf(s.attempts[b]) && p in s'.packages ==>
          p in s'.strays || p in PackagesOf(s'.attempts[b])
  {
  }

  lemma PackagesKept(h: Hash, s: Cache, s': Cache, b: string)
    requires PackagesOwned(s) && AttemptMoves(h, s, s', b)
    ensures PackagesOwned(s')
  {
    hide FileStep;
    PackagesMove(h, s, s', b);
    hide PackageStep, PackagesOf;
    forall p | p in s'.packages && IsTemp(p) && p !in s'.strays
      ensures HasPackager(s', p)
    {
      if p in s.packages && p !in PackagesOf(s.attempts[b]) {
        var c :| c in s.attempts && p in PackagesOf(s.attempts[c]);
        assert c in s'.attempts && p in PackagesOf(s'.attempts[c]);
      } else {
        assert b in s'.attempts && p in PackagesOf(s'.attempts[b]);
      }
    }
  }

  /** What a resolution's place depends on is as before. */
  lemma PlaceKept(h: Hash, s: Cache, s': Cache, c: string, pc: Pc)
    requires PcOk(h, s, c, pc) && Grew(s.disk, s'.disk)
    requires c in s.keys <==> c in s'.keys
    requires c in s.keys ==> s'.keys[c] == s.keys[c] && s.keys[c] in s.disk
    requires pc.Check? || pc.Publish? ==> pc.stage in s.bld ==>
          pc.stage in s'.bld && s'.bld[pc.stage] == s.bld[pc.stage]
    ensures PcOk(h, s', c, pc)
  {
  }

  lemma OthersOk(h: Hash, s: Cache, s': Cache, b: string, c: string)
    requires Injective(h) && Inv(h, s) && AttemptMoves(h, s, s', b)
    requires c in s.attempts && c != b
    ensures PcOk(h, s', c, s.attempts[c])
  {
    var pc := s.attempts[c];
    DiskGrows(h, s, s', b);
    assert PcOk(h, s, b, s.attempts[b]);
    assert PcOk(h, s, c, pc);
    StepsInOwnDirs(h, s, s', b);
    OthersLeaveRow(h, s, s', b, c);
    assert c in s.keys ==> s.keys[c] in s.disk;
    hide AttemptStep, PcOk, Grew, Addressed, Indexed;
    if pc.Check? || pc.Publish? {
      assert pc.stage in Names(pc);
      assert pc.stage in s.used && pc.stage !in Names(s.attempts[b]);
    }
    hide Owned, OwnDirsOnly, Names;
    PlaceKept(h, s, s', c, pc);
  }

  lemma OthersLeaveRow(h: Hash, s: Cache, s': Cache, d: string, b: string)
    requires AttemptMoves(h, s, s', d) && d != b
    ensures b in s.keys <==> b in s'.keys
    ensures b in s.keys ==> s'.keys[b] == s.keys[b]
  {
  }

  lemma MissingWritesNothing(h: Hash, s: Cache, s': Cache, b: string)
    requires AttemptMoves(h, s, s', b) && Missed(s'.attempts[b])
    ensures s'.keys == s.keys
    ensures Missed(s.attempts[b]) || (b in s.keys ==> !Settled(s, b, s.keys[b]))
  {
  }

  lemma StillMissed(h: Hash, s: Cache, s': Cache, b: string)
    requires Injective(h) && Inv(h, s) && AttemptMoves(h, s, s', b)
    requires Missed(s'.attempts[b]) && b in s'.keys
    ensures !Settled(s', b, s'.keys[b])
  {
    DiskGrows(h, s, s', b);
    MissingWritesNothing(h, s, s', b);
    assert PcOk(h, s, b, s.attempts[b]);
    assert b in s.keys ==> s.keys[b] in s.disk;
    hide AttemptStep, Inv, PlaceOk, Missed, Distinct;
  }

  lemma NamesStayDistinct(h: Hash, s: Cache, s': Cache, b: string)
    requires Owned(s) && AttemptMoves(h, s, s', b) && Distinct(s.attempts[b])
    ensures Distinct(s'.attempts[b])
  {
  }

  lemma OwnPlaceOk(h: Hash, s: Cache, s': Cache, b: string)
    requires AttemptMoves(h, s, s', b) && PlaceOk(h, s, b, s.attempts[b])
    ensures PlaceOk(h, s', b, s'.attempts[b])
  {
  }

  lemma OwnOk(h: Hash, s: Cache, s': Cache, b: string)
    requires Injective(h) && Inv(h, s) && AttemptMoves(h, s, s', b)
    ensures PcOk(h, s', b, s'.attempts[b])
  {
    assert PcOk(h, s, b, s.attempts[b]);
    hide AttemptStep, Missed, Settled, PlaceOk, Distinct;
    if Missed(s'.attempts[b]) && b in s'.keys {
      StillMissed(h, s, s', b);
    }
    NamesStayDistinct(h, s, s', b);
    OwnPlaceOk(h, s, s', b);
  }

  lemma AttemptKeepsInv(h: Hash, s: Cache, s': Cache, b: string)
    requires Injective(h) && Inv(h, s) && AttemptMoves(h, s, s', b)
    ensures Inv(h, s')
  {
    DiskGrows(h, s, s', b);
    IndexKept(h, s, s', b);
    assert PcOk(h, s, b, s.attempts[b]);
    OwnershipKept(h, s, s', b);
    PackagesKept(h, s, s', b);
    OwnOk(h, s, s', b);
    forall c | c in s'.attempts
      ensures PcOk(h, s', c, s'.attempts[c])
    {
      if c != b {
        OthersOk(h, s, s', b, c);
      }
    }
  }

  lemma AttemptsElsewhere(s: Cache, s': Cache, b: string)
    requires s'.attempts - {b} == s.attempts - {b}
    ensures forall c :: c != b ==> (c in s.attempts <==> c in s'.attempts)
    ensures forall c :: c != b && c in s.attempts ==> s'.attempts[c] == s.attempts[c]
  {
    forall c | c != b
      ensures c in s.attempts <==> c in s'.attempts
      ensures c in s.attempts ==> s'.attempts[c] == s.attempts[c]
    {
      assert c in s.attempts <==> c in s.attempts - {b};
      assert c in s'.attempts <==> c in s'.attempts - {b};
      if c in s.attempts {
        assert (s.attempts - {b})[c] == (s'.attempts - {b})[c];
      }
    }
  }

  /** The same resolutions hold the same directories. */
  ghost predicate SameHolders(s: Cache, s': Cache) {
    && (forall c :: c in s.attempts && Names(s.attempts[c]) != {} ==>
          c in s'.attempts && s'.attempts[c] == s.attempts[c])
    && (forall c :: c in s'.attempts && Names(s'.attempts[c]) != {} ==>
          c in s.attempts && s'.attempts[c] == s.attempts[c])
  }

  lemma SameOwners(s: Cache, s': Cache, n: string)
    requires SameHolders(s, s') && HasOwner(s, n)
    ensures HasOwner(s', n)
  {
  }

  lemma HoldersKeepOwned(s: Cache, s': Cache)
    requires Owned(s) && DirsSame(s, s') && SameHolders(s, s')
    ensures Owned(s')
  {
    hide Names;
    forall n | HasOwner(s, n)
      ensures HasOwner(s', n)
    {
      SameOwners(s, s', n);
    }
    hide HasOwner;
    forall c, n | c in s'.attempts && n in Names(s'.attempts[c])
      ensures c in s.attempts && n in Names(s.attempts[c])
    {
    }
    hide SameHolders;
  }

  /** A resolution that holds no directory comes or goes. */
  lemma IdleKeepsOwned(s: Cache, s': Cache, b: string)
    requires Owned(s) && DirsSame(s, s') && s'.attempts - {b} == s.attempts - {b}
    requires b in s.attempts ==> Names(s.attempts[b]) == {}
    requires b in s'.attempts ==> Names(s'.attempts[b]) == {}
    ensures Owned(s')
  {
    AttemptsElsewhere(s, s', b);
    hide Names, Owned;
    assert SameHolders(s, s');
    HoldersKeepOwned(s, s');
  }

  lemma IdleKeepsPackages(s: Cache, s': Cache, b: string)
    requires PackagesOwned(s) && s'.packages == s.packages && s'.strays == s.strays
    requires s'.attempts - {b} == s.attempts - {b} && (b in s.attempts ==> PackagesOf(s.attempts[b]) == {})
    ensures PackagesOwned(s')
  {
    AttemptsElsewhere(s, s', b);
    hide PackagesOf;
    forall p | HasPackager(s, p)
      ensures HasPackager(s', p)
    {
      var c :| c in s.attempts && p in PackagesOf(s.attempts[c]);
      assert c in s'.attempts && p in PackagesOf(s'.attempts[c]);
    }
  }

  /** A resolution that holds nothing comes or goes; where the others stand is as before. */
  lemma IdleKeepsInv(h: Hash, s: Cache, s': Cache, b: string)
    requires Inv(h, s) && s' == s.(attempts := s'.attempts) && s'.attempts - {b} == s.attempts - {b} && s.mode.Serving?
    requires b in s.attempts ==> Names(s.attempts[b]) == {} && PackagesOf(s.attempts[b]) == {}
    requires b in s'.attempts ==> Names(s'.attempts[b]) == {} && PcOk(h, s', b, s'.attempts[b])
    ensures Inv(h, s')
  {
    hide PcOk, Owned, PackagesOwned, Addressed, Names, PackagesOf;
    IdleKeepsOwned(s, s', b);
    IdleKeepsPackages(s, s', b);
    AttemptsElsewhere(s, s', b);
    forall c | c in s'.attempts && c != b
      ensures PcOk(h, s', c, s'.attempts[c])
    {
      SamePlace(h, s, s', c, s.attempts[c]);
    }
  }

  lemma SamePlace(h: Hash, s: Cache, s': Cache, c: string, pc: Pc)
    requires s' == s.(attempts := s'.attempts) && PcOk(h, s, c, pc)
    ensures PcOk(h, s', c, pc)
  {
  }

  lemma ArrivalKeepsInv(h: Hash, s: Cache, s': Cache, b: string)
    requires Inv(h, s) && Arrives(s, s', b)
    ensures Inv(h, s')
  {
    assert s'.attempts - {b} == s.attempts - {b};
    assert PcOk(h, s', b, Lookup);
    hide Inv, PcOk;
    IdleKeepsInv(h, s, s', b);
  }

  lemma DepartureKeepsInv(h: Hash, s: Cache, s': Cache, b: string)
    requires Inv(h, s) && Leaves(s, s', b)
    ensures Inv(h, s')
  {
    hide Inv, PcOk;
    assert s'.attempts - {b} == s.attempts - {b};
    IdleKeepsInv(h, s, s', b);
  }

  lemma CrashKeepsInv(h: Hash, s: Cache, s': Cache)
    requires Inv(h, s) && Crashes(s, s')
    ensures Inv(h, s')
  {
  }

  lemma SweepKeepsInv(h: Hash, s: Cache, s': Cache)
    requires Inv(h, s) && Sweeps(s, s')
    ensures Inv(h, s')
  {
    assert s'.attempts == s.attempts == map[];
    assert s'.disk == s.disk && s'.images == s.images && s'.keys == s.keys;
    SweepKeepsOwned(s, s');
    SweepKeepsPackages(s, s');
    hide Owned, PackagesOwned, Sweeps, Addressed;
  }

  lemma SweepKeepsOwned(s: Cache, s': Cache)
    requires Owned(s) && Sweeps(s, s') && s'.attempts == s.attempts == map[]
    ensures Owned(s')
  {
    if n :| n in s.bld && IsTemp(n) && Swept(s, s', n) {
      Elsewhere(s.bld, s'.bld, n);
      assert n in s.leftover || HasOwner(s, n);
    }
  }

  lemma SweepKeepsPackages(s: Cache, s': Cache)
    requires PackagesOwned(s) && Sweeps(s, s') && s'.attempts == s.attempts == map[]
    ensures PackagesOwned(s')
  {
    forall p | p in s.packages && IsTemp(p)
      ensures p in s.strays
    {
      assert p in s.strays || HasPackager(s, p);
    }
  }

  lemma NextKeepsInv(h: Hash, s: Cache, s': Cache)
    requires Injective(h) && Inv(h, s) && Next(h, s, s')
    ensures Inv(h, s')
  {
    hide Inv, AttemptStep;
    if b :| AttemptMoves(h, s, s', b) {
      AttemptKeepsInv(h, s, s', b);
    } else if b :| Arrives(s, s', b) {
      ArrivalKeepsInv(h, s, s', b);
    } else if b :| Leaves(s, s', b) {
      DepartureKeepsInv(h, s, s', b);
    } else if Crashes(s, s') {
      CrashKeepsInv(h, s, s');
    } else {
      SweepKeepsInv(h, s, s');
    }
  }

  lemma InitHasInv(h: Hash, s: Cache)
    requires Init(s)
    ensures Inv(h, s)
  {
  }

  lemma {:induction false} RunKeepsInv(h: Hash, run: seq<Cache>, k: nat)
    requires Injective(h) && IsRun(h, run) && Inv(h, run[0]) && k < |run|
    ensures Inv(h, run[k])
  {
    if k > 0 {
      RunKeepsInv(h, run, k - 1);
      assert Next(h, run[k - 1], run[k - 1 + 1]);
      NextKeepsInv(h, run[k - 1], run[k]);
    }
  }

  // ---- Main results ----

  /** Content-address integrity: in every state of every run each published directory
      holds what its name says, and every key a resolution returns names one. */
  lemma ContentAddressIntegrity(h: Hash, run: seq<Cache>, k: nat)
    requires Injective(h) && IsRun(h, run) && Init(run[0]) && k < |run|
    ensures Addressed(h, run[k].disk)
    ensures forall b, key :: b in run[k].attempts && run[k].attempts[b] == Done(Key(key)) ==>
              key in run[k].disk && h(run[k].disk[key].artifacts) == key
  {
    InitHasInv(h, run[0]);
    RunKeepsInv(h, run, k);
    forall b, key | b in run[k].attempts && run[k].attempts[b] == Done(Key(key))
      ensures key in run[k].disk
    {
      assert PcOk(h, run[k], b, run[k].attempts[b]);
    }
  }

  /** Publish before index: whatever step the process died at, a build key leads to an
      images row, and an images row to a published directory of that size. */
  lemma PublishBeforeIndex(h: Hash, run: seq<Cache>, k: nat)
    requires Injective(h) && IsRun(h, run) && Init(run[0]) && k < |run|
    ensures Indexed(run[k])
  {
    InitHasInv(h, run[0]);
    RunKeepsInv(h, run, k);
  }

  lemma NextGrows(h: Hash, s: Cache, s': Cache)
    requires Injective(h) && Inv(h, s) && Next(h, s, s')
    ensures Grew(s.disk, s'.disk)
  {
    hide AttemptStep, Inv, Sweeps;
    if b :| AttemptMoves(h, s, s', b) {
      DiskGrows(h, s, s', b);
    } else {
      if Sweeps(s, s') {
        SweepKeepsDisk(s, s');
      }
      assert s'.disk == s.disk;
    }
  }

  lemma SweepKeepsDisk(s: Cache, s': Cache)
    requires Sweeps(s, s')
    ensures s'.disk == s.disk
  {
  }

  /** Nothing is ever taken back: a published directory is there for good with the same
      artifacts, indexed or not, and unless it was empty no later publish replaces it. */
  lemma {:induction false} PublishedForGood(h: Hash, run: seq<Cache>, i: nat, j: nat)
    requires Injective(h) && IsRun(h, run) && Init(run[0]) && i <= j < |run|
    ensures Grew(run[i].disk, run[j].disk)
  {
    hide Next, Inv;
    if i < j {
      PublishedForGood(h, run, i, j - 1);
      InitHasInv(h, run[0]);
      RunKeepsInv(h, run, j - 1);
      assert Next(h, run[j - 1], run[j - 1 + 1]);
      NextGrows(h, run[j - 1], run[j]);
    }
  }

  /** A directory that was published but never indexed is not lost: a resolution that
      builds the same bytes later, under whichever build key, publishes nothing and goes
      on to index that directory, whose artifacts are the ones it has just built. */
  lemma UnindexedIsReused(h: Hash, run: seq<Cache>, i: nat, j: nat, b: string)
    requires Injective(h) && IsRun(h, run) && Init(run[0]) && i <= j && j + 1 < |run|
    requires AttemptMoves(h, run[j], run[j + 1], b) && run[j].attempts[b].Check?
    requires h(run[j].attempts[b].art) in run[i].disk
    ensures var pc := run[j].attempts[b];
            && run[j + 1].attempts[b] == SaveIndex(pc.stage, pc.art)
            && run[j + 1].disk == run[j].disk
            && h(pc.art) in run[j].disk && run[j].disk[h(pc.art)].artifacts == pc.art
            && run[i].disk[h(pc.art)].artifacts == pc.art
  {
    hide AttemptMoves, Next;
    PublishedForGood(h, run, i, j);
    ContentAddressIntegrity(h, run, j);
    CheckGoesOn(h, run[j], run[j + 1], b);
    var k := h(run[j].attempts[b].art);
    assert k in run[j].disk && h(run[j].disk[k].artifacts) == k;
  }

  lemma CheckGoesOn(h: Hash, s: Cache, s': Cache, b: string)
    requires AttemptMoves(h, s, s', b) && s.attempts[b].Check? && h(s.attempts[b].art) in s.disk
    ensures b in s.attempts && b in s'.attempts
    ensures s'.attempts[b] == SaveIndex(s.attempts[b].stage, s.attempts[b].art)
    ensures s'.disk == s.disk
  {
  }

  /** The resolution is not on its way to a download, and answers with nothing but k. */
  predicate AnswersWith(pc: Pc, k: string) {
    match pc
    case Lookup => true
    case DropStage(_, result) => result == Failed || result == Key(k)
    case Done(result) => result == Failed || result == Key(k)
    case _ => false
  }

  lemma OnlyAMissWrites(h: Hash, s: Cache, s': Cache, c: string, b: string)
    requires AttemptMoves(h, s, s', c) && b in s.keys
    requires !(c == b && Missed(s.attempts[c]))
    ensures b in s'.keys && s'.keys[b] == s.keys[b]
  {
  }

  lemma SettledAttempt(h: Hash, s: Cache, s': Cache, c: string, b: string, k: string)
    requires Injective(h) && Inv(h, s) && AttemptMoves(h, s, s', c) && Settled(s, b, k)
    ensures Settled(s', b, k)
  {
    DiskGrows(h, s, s', c);
    assert PcOk(h, s, c, s.attempts[c]);
    hide AttemptStep, Inv, PlaceOk;
    OnlyAMissWrites(h, s, s', c, b);
  }

  lemma SettledStep(h: Hash, s: Cache, s': Cache, b: string, k: string)
    requires Injective(h) && Inv(h, s) && Next(h, s, s') && Settled(s, b, k)
    ensures Settled(s', b, k)
  {
    hide AttemptStep, Inv;
    if c :| AttemptMoves(h, s, s', c) {
      SettledAttempt(h, s, s', c, b, k);
    }
  }

  lemma SettledMeansNoMiss(h: Hash, s: Cache, b: string, k: string)
    requires Inv(h, s) && Settled(s, b, k) && b in s.attempts
    ensures AnswersWith(s.attempts[b], k)
  {
  }

  lemma {:induction false} SettledForGood(h: Hash, run: seq<Cache>, i: nat, j: nat, b: string, k: string)
    requires Injective(h) && IsRun(h, run) && Inv(h, run[0]) && i <= j < |run|
    requires Settled(run[i], b, k)
    ensures Settled(run[j], b, k)
  {
    hide Next, Inv, Settled;
    if i < j {
      SettledForGood(h, run, i, j - 1, b, k);
      RunKeepsInv(h, run, j - 1);
      assert Next(h, run[j - 1], run[j - 1 + 1]);
      SettledStep(h, run[j - 1], run[j], b, k);
    }
  }

  /** Cache stability: once a build key's row names a directory with a kernel, the row
      never changes, no resolution of that key downloads any more, and each that answers
      answers with that content key; even though builds are not deterministic, other
      keys are resolved at the same time, and the process may die at any step. */
  lemma RowsAreStable(h: Hash, run: seq<Cache>, i: nat, j: nat, b: string, k: string)
    requires Injective(h) && IsRun(h, run) && Init(run[0]) && i <= j < |run|
    requires Settled(run[i], b, k)
    ensures Settled(run[j], b, k)
    ensures b in run[j].attempts ==> AnswersWith(run[j].attempts[b], k)
  {
    hide Inv, Settled, AnswersWith;
    InitHasInv(h, run[0]);
    RunKeepsInv(h, run, j);
    SettledForGood(h, run, i, j, b, k);
    if b in run[j].attempts {
      SettledMeansNoMiss(h, run[j], b, k);
    }
  }

  // ---- Rows without a kernel ----

  lemma {:induction false} LengthBound(names: set<string>) returns (m: nat)
    ensures forall n :: n in names ==> |n| <= m
  {
    m := 0;
    if names != {} {
      var n :| n in names;
      var rest := LengthBound(names - {n});
      m := if |n| > rest then |n| else rest;
    }
  }

  /** There is always another temporary name. */
  lemma FreshName(names: set<string>) returns (n: string)
    ensures IsTemp(n) && n !in names
  {
    var m := LengthBound(names);
    n := TEMP_PREFIX + seq(m, _ => 'x');
  }

  /** A run from s to t. */
  ghost predicate Leads(h: Hash, run: seq<Cache>, s: Cache, t: Cache) {
    IsRun(h, run) && run[0] == s && run[|run| - 1] == t
  }

  lemma OneMoreState(h: Hash, run: seq<Cache>, s: Cache, t: Cache, t': Cache)
    requires Leads(h, run, s, t) && Next(h, t, t')
    ensures Leads(h, run + [t'], s, t')
  {
    hide Next;
    var more := run + [t'];
    forall i | 0 <= i < |more| - 1
      ensures Next(h, more[i], more[i + 1])
    {
      if i < |run| - 1 {
        assert Next(h, run[i], run[i + 1]);
      }
    }
  }

  lemma RunsJoin(h: Hash, first: seq<Cache>, rest: seq<Cache>, s: Cache, t: Cache, u: Cache)
    requires Leads(h, first, s, t) && Leads(h, rest, t, u)
    ensures Leads(h, first + rest[1..], s, u)
  {
    hide Next;
    var run := first + rest[1..];
    forall i | 0 <= i < |run| - 1
      ensures Next(h, run[i], run[i + 1])
    {
      if i < |first| - 1 {
        assert Next(h, first[i], first[i + 1]);
      } else {
        var k := i - (|first| - 1);
        assert run[i] == rest[k] && run[i + 1] == rest[k + 1];
      }
    }
    assert run[|run| - 1] == rest[|rest| - 1];
  }

  function Standing(s: Cache, b: string, pc: Pc): Cache {
    s.(attempts := s.attempts[b := pc])
  }

  /** The resolution of b moves on from `pc` to `next`, and the rest from s to t. */
  lemma OneMoreMove(h: Hash, run: seq<Cache>, s0: Cache, s: Cache, t: Cache, b: string, pc: Pc, next: Pc)
    returns (more: seq<Cache>)
    requires Leads(h, run, s0, Standing(s, b, pc)) && s.mode.Serving? && t.mode == s.mode && t.attempts == s.attempts
    requires AttemptStep(h, Standing(s, b, pc), Standing(t, b, next), b, pc, next)
    ensures Leads(h, more, s0, Standing(t, b, next))
  {
    hide AttemptStep;
    var from, to := Standing(s, b, pc), Standing(t, b, next);
    assert to.attempts == from.attempts[b := next];
    assert AttemptMoves(h, from, to, b);
    hide Leads;
    OneMoreState(h, run, s0, from, to);
    more := run + [to];
  }

  /** A key whose row is not settled is looked up in vain. */
  lemma Miss(h: Hash, s: Cache, b: string) returns (run: seq<Cache>)
    requires s.mode.Serving? && b !in s.attempts && b in s.keys && !Settled(s, b, s.keys[b])
    ensures Leads(h, run, s, Standing(s, b, MakeStage))
  {
    assert Arrives(s, Standing(s, b, Lookup), b);
    OneMoreState(h, [s], s, s, Standing(s, b, Lookup));
    run := [s] + [Standing(s, b, Lookup)];
    assert !Settled(Standing(s, b, Lookup), b, s.keys[b]);
    hide Leads, Settled;
    run := OneMoreMove(h, run, s, s, s, b, Lookup, MakeStage);
  }

  function Staged(s: Cache, n: string, art: Artifacts): Cache {
    s.(bld := s.bld[n := Tree(art, false)], used := s.used + {n})
  }

  /** Then anything may be fetched. */
  lemma FetchAnything(h: Hash, run0: seq<Cache>, s0: Cache, s: Cache, b: string, n: string, art: Artifacts)
    returns (run: seq<Cache>)
    requires Leads(h, run0, s0, Standing(s, b, MakeStage)) && s.mode.Serving?
    requires IsTemp(n) && n !in s.used && n !in s.bld
    ensures Leads(h, run, s0, Standing(Staged(s, n, art), b, Check(n, art)))
  {
    hide Leads;
    var empty, full := Staged(s, n, NO_FILES), Staged(s, n, art);
    run := OneMoreMove(h, run0, s0, s, empty, b, MakeStage, Fetch(n));
    assert empty.bld - {n} == full.bld - {n};
    run := OneMoreMove(h, run, s0, empty, full, b, Fetch(n), HashStage(n));
    run := OneMoreMove(h, run, s0, full, full, b, HashStage(n), Check(n, art));
  }

  function Published(s: Cache, n: string, k: string): Cache
    requires n in s.bld
  {
    s.(disk := s.disk[k := s.bld[n]], bld := s.bld - {n})
  }

  lemma PublishStage(h: Hash, run0: seq<Cache>, s0: Cache, s: Cache, b: string, n: string, art: Artifacts)
    returns (run: seq<Cache>)
    requires Leads(h, run0, s0, Standing(s, b, Check(n, art))) && s.mode.Serving?
    requires n in s.bld && s.bld[n].artifacts == art && h(art) !in s.disk
    ensures Leads(h, run, s0, Standing(Published(s, n, h(art)), b, SaveIndex(n, art)))
  {
    hide Leads;
    var t := Published(s, n, h(art));
    run := OneMoreMove(h, run0, s0, s, s, b, Check(n, art), Publish(n, art));
    assert Moved(Standing(s, b, Publish(n, art)), Standing(t, b, SyncDir(n, art)), n, h(art));
    run := OneMoreMove(h, run, s0, s, t, b, Publish(n, art), SyncDir(n, art));
    run := OneMoreMove(h, run, s0, t, t, b, SyncDir(n, art), SaveIndex(n, art));
  }

  lemma IndexStage(h: Hash, run0: seq<Cache>, s0: Cache, s: Cache, b: string, n: string, art: Artifacts)
    returns (run: seq<Cache>, t: Cache)
    requires Leads(h, run0, s0, Standing(s, b, SaveIndex(n, art))) && s.mode.Serving?
    ensures Leads(h, run, s0, t) && b in t.keys && t.keys[b] == h(art)
  {
    hide Leads, Size;
    var k := h(art);
    var saved := s.(images := if k in s.images then s.images else s.images[k := Size(art)], keys := s.keys[b := k]);
    run := OneMoreMove(h, run0, s0, s, saved, b, SaveIndex(n, art), DropStage(n, Key(k)));
    t := Standing(saved, b, DropStage(n, Key(k)));
  }

  /** From the check on, publishing if need be, to the row that names what was fetched. */
  lemma PublishAndIndex(h: Hash, run0: seq<Cache>, s0: Cache, s: Cache, b: string, n: string, art: Artifacts)
    returns (run: seq<Cache>, t: Cache)
    requires Leads(h, run0, s0, Standing(s, b, Check(n, art))) && s.mode.Serving?
    requires n in s.bld && s.bld[n].artifacts == art
    ensures Leads(h, run, s0, t) && b in t.keys && t.keys[b] == h(art)
  {
    hide Leads;
    if h(art) in s.disk {
      run := OneMoreMove(h, run0, s0, s, s, b, Check(n, art), SaveIndex(n, art));
      run, t := IndexStage(h, run, s0, s, b, n, art);
    } else {
      run := PublishStage(h, run0, s0, s, b, n, art);
      run, t := IndexStage(h, run, s0, Published(s, n, h(art)), b, n, art);
    }
  }

  /** This run leads from s to a state in which the row of b names another content key than k. */
  ghost predicate MovesRow(h: Hash, s: Cache, b: string, k: string, run: seq<Cache>) {
    && IsRun(h, run) && run[0] == s
    && b in run[|run| - 1].keys && run[|run| - 1].keys[b] != k
  }

  /** Without a kernel the next resolution builds again, and the row may move. */
  lemma UnsettledRowMoves(h: Hash, s: Cache, b: string, k: string) returns (run: seq<Cache>, t: Cache)
    requires Injective(h) && s.mode.Serving? && b !in s.attempts
    requires b in s.keys && s.keys[b] == k && !Settled(s, b, k)
    ensures Leads(h, run, s, t) && b in t.keys && t.keys[b] != k
  {
    var n := FreshName(s.used + s.bld.Keys);
    var art := if h(NO_FILES) != k then NO_FILES else Artifacts(Some([]), None);
    assert h(art) != k;
    hide Leads, Settled, Injective;
    run := Miss(h, s, b);
    run := FetchAnything(h, run, s, s, b, n, art);
    run, t := PublishAndIndex(h, run, s, Staged(s, n, art), b, n, art);
  }

  /** A resolution of b under way, or a sweep, is no obstacle: the process may be restarted. */
  lemma Restart(h: Hash, s: Cache) returns (run: seq<Cache>, t: Cache)
    ensures Leads(h, run, s, t)
    ensures t.mode.Serving? && t.attempts == map[] && t.keys == s.keys && t.disk == s.disk
  {
    var down := s.(attempts := map[], mode := Sweeping, leftover := TempDirs(s.bld), strays := TempNames(s.packages));
    t := down.(mode := Serving);
    assert Crashes(s, down) && Sweeps(down, t);
    OneMoreState(h, [s], s, s, down);
    OneMoreState(h, [s] + [down], s, down, t);
    run := [s] + [down] + [t];
  }

  lemma SomeRunMovesRow(h: Hash, s: Cache, b: string, k: string) returns (run: seq<Cache>)
    requires Injective(h) && b in s.keys && s.keys[b] == k && !Settled(s, b, k)
    ensures MovesRow(h, s, b, k, run)
  {
    var t;
    if s.mode.Serving? && b !in s.attempts {
      run, t := UnsettledRowMoves(h, s, b, k);
    } else {
      var first, up := Restart(h, s);
      var rest;
      rest, t := UnsettledRowMoves(h, up, b, k);
      RunsJoin(h, first, rest, s, up, t);
      run := first + rest[1..];
    }
    assert Leads(h, run, s, t);
  }

  /** Exactly which rows are for good: some way on from here moves the row of b if and only
      if it names an image without a non-empty kernel, or nothing. */
  lemma RowMovesExactlyWithoutKernel(h: Hash, run: seq<Cache>, i: nat, b: string, k: string)
    requires Injective(h) && IsRun(h, run) && Init(run[0]) && i < |run|
    requires b in run[i].keys && run[i].keys[b] == k
    ensures k in run[i].disk
    ensures (exists more :: MovesRow(h, run[i], b, k, more)) <==>
            k == "" || run[i].disk[k].artifacts.kernel.None? || run[i].disk[k].artifacts.kernel.value == []
  {
    PublishBeforeIndex(h, run, i);
    if Settled(run[i], b, k) {
      forall more
        ensures !MovesRow(h, run[i], b, k, more)
      {
        if MovesRow(h, run[i], b, k, more) {
          NoRunMovesRow(h, run, i, b, k, more);
        }
      }
    } else {
      var more := SomeRunMovesRow(h, run[i], b, k);
    }
  }

  lemma NoRunMovesRow(h: Hash, run: seq<Cache>, i: nat, b: string, k: string, more: seq<Cache>)
    requires Injective(h) && IsRun(h, run) && Init(run[0]) && i < |run|
    requires Settled(run[i], b, k) && IsRun(h, more) && more[0] == run[i]
    ensures !MovesRow(h, run[i], b, k, more)
  {
    hide Inv;
    InitHasInv(h, run[0]);
    RunKeepsInv(h, run, i);
    SettledForGood(h, more, 0, |more| - 1, b, k);
  }

  /** Every temporary directory belongs to one resolution in flight, or was abandoned, and
      so does every package of the resolver's. */
  lemma TempDirsAreOwned(h: Hash, run: seq<Cache>, k: nat)
    requires Injective(h) && IsRun(h, run) && Init(run[0]) && k < |run|
    ensures Owned(run[k]) && PackagesOwned(run[k])
  {
    InitHasInv(h, run[0]);
    RunKeepsInv(h, run, k);
  }

  // ---- What one resolution leaves behind ----

  /** In this step n is abandoned: the process dies, the removal of n by its holder leaves
      it, or a package of that name stays in kraft's store. */
  ghost predicate Abandons(s: Cache, s': Cache, n: string) {
    || Crashes(s, s')
    || exists b :: AbandonsAs(s, s', b, n)
  }

  ghost predicate AbandonsAs(s: Cache, s': Cache, b: string, n: string) {
    && b in s.attempts && b in s'.attempts
    && (|| (n in Names(s.attempts[b]) && n !in Names(s'.attempts[b]) && n in s'.bld)
        || (s.attempts[b].Pack? && s.attempts[b].stage == n && !s'.attempts[b].Export? && n in s'.packages)
        || (s.attempts[b].DropPackage? && s.attempts[b].stage == n && n in s'.packages))
  }

  lemma PcIsDistinct(h: Hash, s: Cache, b: string)
    requires Inv(h, s) && b in s.attempts
    ensures Distinct(s.attempts[b])
  {
    assert PcOk(h, s, b, s.attempts[b]);
  }

  /** A name once handed out gets no new holder. */
  lemma HoldersShrink(h: Hash, s: Cache, s': Cache, n: string, c: string)
    requires Inv(h, s) && Next(h, s, s') && n in s.used && c in s'.attempts && n in Names(s'.attempts[c])
    ensures c in s.attempts && n in Names(s.attempts[c])
  {
    hide AttemptStep, Inv, Sweeps, Names, Distinct;
    if b :| AttemptMoves(h, s, s', b) {
      PcIsDistinct(h, s, b);
      StepsInOwnDirs(h, s, s', b);
    } else if b :| Arrives(s, s', b) {
      NothingHeld();
    } else if Sweeps(s, s') {
      SweepKeepsAttempts(s, s');
    }
  }

  lemma SweepKeepsAttempts(s: Cache, s': Cache)
    requires Sweeps(s, s')
    ensures s'.attempts == s.attempts && s'.used == s.used
  {
  }

  lemma NothingHeld()
    ensures Names(Lookup) == {}
  {
  }

  lemma UsedGrows(h: Hash, s: Cache, s': Cache)
    requires Inv(h, s) && Next(h, s, s')
    ensures s.used <= s'.used
  {
    hide AttemptStep, Inv, Sweeps, Names, Distinct;
    if b :| AttemptMoves(h, s, s', b) {
      PcIsDistinct(h, s, b);
      StepsInOwnDirs(h, s, s', b);
    } else if Sweeps(s, s') {
      SweepKeepsAttempts(s, s');
    }
  }

  /** Nobody but the resolution of b has this name to remove, and it is not free. */
  ghost predicate HeldBy(s: Cache, b: string, n: string) {
    n in s.used && forall c :: c in s.attempts && n in Names(s.attempts[c]) ==> c == b
  }

  lemma HolderIsOnly(h: Hash, s: Cache, b: string, n: string)
    requires Inv(h, s) && b in s.attempts && n in Names(s.attempts[b])
    ensures HeldBy(s, b, n)
  {
    assert Owned(s);
    hide Inv, Names;
  }

  lemma HolderStays(h: Hash, s: Cache, s': Cache, b: string, n: string)
    requires Inv(h, s) && Next(h, s, s') && HeldBy(s, b, n)
    ensures HeldBy(s', b, n)
  {
    hide Inv, Next, Names;
    UsedGrows(h, s, s');
    forall c | c in s'.attempts && n in Names(s'.attempts[c])
      ensures c == b
    {
      HoldersShrink(h, s, s', n, c);
    }
  }

  lemma {:induction false} OnlyItsHolder(h: Hash, run: seq<Cache>, i: nat, j: nat, b: string, n: string)
    requires Injective(h) && IsRun(h, run) && Inv(h, run[0]) && i <= j < |run|
    requires b in run[i].attempts && n in Names(run[i].attempts[b])
    ensures HeldBy(run[j], b, n)
  {
    hide Inv, Next, Names, HeldBy;
    if i == j {
      RunKeepsInv(h, run, i);
      HolderIsOnly(h, run[i], b, n);
    } else {
      OnlyItsHolder(h, run, i, j - 1, b, n);
      RunKeepsInv(h, run, j - 1);
      assert Next(h, run[j - 1], run[j - 1 + 1]);
      HolderStays(h, run[j - 1], run[j], b, n);
    }
  }

  lemma PackagesAreHeld(pc: Pc)
    ensures PackagesOf(pc) <= Names(pc)
  {
  }

  /** Nothing becomes a leftover or a stray but by being abandoned. */
  lemma OnlyAbandonedIsLeft(h: Hash, s: Cache, s': Cache, n: string)
    requires Inv(h, s) && Next(h, s, s') && !Abandons(s, s', n)
    ensures n in s'.leftover ==> n in s.leftover
    ensures n in s'.strays ==> n in s.strays
  {
    hide AttemptStep, AbandonsAs, Inv, Sweeps, Distinct;
    if b :| AttemptMoves(h, s, s', b) {
      PcIsDistinct(h, s, b);
      LeftByAttempt(h, s, s', b, n);
    } else if Sweeps(s, s') {
      SweepsLeaveLess(s, s');
    }
  }

  lemma SweepsLeaveLess(s: Cache, s': Cache)
    requires Sweeps(s, s')
    ensures s'.leftover <= s.leftover && s'.strays <= s.strays
  {
  }

  lemma LeftByAttempt(h: Hash, s: Cache, s': Cache, b: string, n: string)
    requires AttemptMoves(h, s, s', b) && Distinct(s.attempts[b]) && !AbandonsAs(s, s', b, n)
    ensures n in s'.leftover ==> n in s.leftover
    ensures n in s'.strays ==> n in s.strays
  {
    hide FileStep, Distinct;
    StepsInOwnDirs(h, s, s', b);
  }

  lemma {:induction false} NotAbandoned(h: Hash, run: seq<Cache>, i: nat, j: nat, n: string)
    requires Injective(h) && IsRun(h, run) && Inv(h, run[0]) && i <= j < |run|
    requires forall m :: i <= m < j ==> !Abandons(run[m], run[m + 1], n)
    ensures n in run[j].leftover ==> n in run[i].leftover
    ensures n in run[j].strays ==> n in run[i].strays
  {
    hide Inv, Next, Abandons;
    if i < j {
      NotAbandoned(h, run, i, j - 1, n);
      RunKeepsInv(h, run, j - 1);
      assert Next(h, run[j - 1], run[j - 1 + 1]) && !Abandons(run[j - 1], run[j - 1 + 1], n);
      OnlyAbandonedIsLeft(h, run[j - 1], run[j], n);
    }
  }

  /** A resolution leaves nothing behind, however it ends and whatever else is in flight:
      take any temporary directory it holds at some time. Once it holds it no longer, the
      directory is gone or a leftover, and so is the package of that name; and if neither was
      abandoned in between, by a crash or in its own removal or packaging, both are gone. */
  lemma AttemptLeavesNothing(h: Hash, run: seq<Cache>, i: nat, j: nat, b: string, n: string)
    requires Injective(h) && IsRun(h, run) && Init(run[0]) && i <= j < |run|
    requires b in run[i].attempts && n in Names(run[i].attempts[b])
    requires b in run[j].attempts ==> n !in Names(run[j].attempts[b])
    ensures n in run[j].bld ==> n in run[j].leftover
    ensures n in run[j].packages ==> n in run[j].strays
    ensures (forall m :: i <= m < j ==> !Abandons(run[m], run[m + 1], n)) ==>
              n !in run[j].bld && (n !in run[i].strays ==> n !in run[j].packages)
  {
    InitHasInv(h, run[0]);
    TempDirsAreOwned(h, run, i);
    TempDirsAreOwned(h, run, j);
    OnlyItsHolder(h, run, i, j, b, n);
    assert IsTemp(n) && n !in run[i].leftover;
    NobodyHolds(run[j], n);
    if forall m :: i <= m < j ==> !Abandons(run[m], run[m + 1], n) {
      NotAbandoned(h, run, i, j, n);
    }
  }

  lemma NobodyHolds(s: Cache, n: string)
    requires Owned(s) && PackagesOwned(s) && IsTemp(n)
    requires forall c :: c in s.attempts ==> n !in Names(s.attempts[c])
    ensures n in s.bld ==> n in s.leftover
    ensures n in s.packages ==> n in s.strays
  {
    if HasPackager(s, n) {
      var c :| c in s.attempts && n in PackagesOf(s.attempts[c]);
      PackagesAreHeld(s.attempts[c]);
    }
    hide Names, PackagesOf;
  }

  /** No removal failed, no packaging failed half-way, and the process did not die between
      these two states. */
  ghost predicate NothingAbandoned(run: seq<Cache>, i: nat, j: nat) {
    forall m :: i <= m < j < |run| ==> run[m + 1].leftover <= run[m].leftover && run[m + 1].strays <= run[m].strays
  }

  lemma {:induction false} NoLeftovers(run: seq<Cache>, i: nat, j: nat)
    requires i <= j < |run| && NothingAbandoned(run, i, j) && run[i].leftover == {} && run[i].strays == {}
    ensures run[j].leftover == {} && run[j].strays == {}
  {
    if i < j {
      NoLeftovers(run, i, j - 1);
      assert run[j - 1 + 1].leftover <= run[j - 1].leftover && run[j - 1 + 1].strays <= run[j - 1].strays;
    }
  }

  /** When every removal succeeds, resolutions leave nothing behind, however they ended:
      with none in flight neither the build directory nor kraft's store holds anything of
      the resolver's. */
  lemma CleanRunsLeaveNothing(h: Hash, run: seq<Cache>, i: nat, j: nat)
    requires Injective(h) && IsRun(h, run) && Init(run[0]) && i <= j < |run|
    requires run[i].leftover == {} && run[i].strays == {} && NothingAbandoned(run, i, j)
    requires run[j].attempts == map[]
    ensures forall n :: n in run[j].bld || n in run[j].packages ==> !IsTemp(n)
  {
    NoLeftovers(run, i, j);
    TempDirsAreOwned(h, run, j);
    assert forall n :: !HasOwner(run[j], n) && !HasPackager(run[j], n);
  }
}
