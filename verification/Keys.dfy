/// The two kinds of cache keys (internal/resolver/images.go): the content key of a
/// directory of artifacts and the build key of a build specification.
///
/// SHA-256 and the JSON encoder are parameters: any functions. Where one has to be
/// injective, or its text has to be printable, that is a hypothesis of the result.
module Keys {
  import opened ImageCache
  import opened Texts

  const NUL := '\0'
  const LF := '\n'

  const KERNEL := "kernel"
  const INITRD := "initrd"
  const ARTIFACTS := [KERNEL, INITRD]

  // ---- Content keys ----

  ghost predicate DigestIsInjective(digest: Bytes -> string) {
    forall a, b :: digest(a) == digest(b) ==> a == b
  }

  /** A digest is printed in hexadecimal; all that matters of it is that neither
      separator occurs. */
  ghost predicate DigestIsPlain(digest: Bytes -> string) {
    forall a :: NUL !in digest(a) && LF !in digest(a)
  }

  ghost predicate TextIsInjective(sha: string -> string) {
    forall s, t :: sha(s) == sha(t) ==> s == t
  }

  /** What one artifact adds to the text the outer hash is taken over. */
  function Entry(digest: Bytes -> string, name: string, bytes: Bytes): string {
    name + [NUL] + digest(bytes) + [LF]
  }

  function Part(digest: Bytes -> string, name: string, files: map<string, Bytes>): string {
    if name in files then Entry(digest, name, files[name]) else ""
  }

  function OuterText(digest: Bytes -> string, names: seq<string>, files: map<string, Bytes>): string {
    if names == [] then ""
    else
      Part(digest, names[0], files) + OuterText(digest, names[1..], files)
  }

  function TotalSize(names: seq<string>, files: map<string, Bytes>): nat {
    if names == [] then 0
    else (if names[0] in files then |files[names[0]]| else 0) + TotalSize(names[1..], files)
  }

  /** What opening and reading one file of the directory comes to. */
  datatype Opened = Missing | Unopenable | Unreadable | File(bytes: Bytes)

  function Open(dir: map<string, Opened>, name: string): Opened {
    if name in dir then dir[name] else Missing
  }

  function FilesOf(dir: map<string, Opened>): map<string, Bytes> {
    map n | n in dir && dir[n].File? :: dir[n].bytes
  }

  lemma OneMoreName(digest: Bytes -> string, names: seq<string>, i: nat, files: map<string, Bytes>, outer: string)
    requires i < |names|
    ensures outer + OuterText(digest, names[i..], files)
         == (outer + Part(digest, names[i], files)) + OuterText(digest, names[i + 1..], files)
    ensures TotalSize(names[i..], files)
         == (if names[i] in files then |files[names[i]]| else 0) + TotalSize(names[i + 1..], files)
  {
  }

  /** generateContentKey: the loop over the artifact names. It fails exactly when one of
      them is there but cannot be read; a missing one is left out. */
  method GenerateContentKey(sha: string -> string, digest: Bytes -> string, names: seq<string>,
                            dir: map<string, Opened>)
    returns (key: Option<string>, size: nat)
    ensures key.Some? <==> forall n :: n in names ==> Open(dir, n).Missing? || Open(dir, n).File?
    ensures key.Some? ==>
          key.value == sha(OuterText(digest, names, FilesOf(dir))) && size == TotalSize(names, FilesOf(dir))
  {
    var outer := "";
    size := 0;
    ghost var files := FilesOf(dir);
    assert names[0..] == names && outer + OuterText(digest, names, files) == OuterText(digest, names, files);
    hide OuterText, TotalSize;
    for i := 0 to |names|
      invariant outer + OuterText(digest, names[i..], files) == OuterText(digest, names, files)
      invariant size + TotalSize(names[i..], files) == TotalSize(names, files)
      invariant forall j :: 0 <= j < i ==> Open(dir, names[j]).Missing? || Open(dir, names[j]).File?
    {
      OneMoreName(digest, names, i, files, outer);
      match Open(dir, names[i]) {
        case Missing =>
          assert outer + "" == outer;
        case Unopenable => return None, 0;
        case Unreadable => return None, 0;
        case File(bytes) =>
          size := size + |bytes|;
          outer := outer + Entry(digest, names[i], bytes);
      }
    }
    NoNames(digest, names, files, outer);
    key := Some(sha(outer));
  }

  lemma NoNames(digest: Bytes -> string, names: seq<string>, files: map<string, Bytes>, outer: string)
    ensures outer + OuterText(digest, names[|names|..], files) == outer && TotalSize(names[|names|..], files) == 0
  {
  }

  /** A text is cut at the first separator in one way only. */
  lemma CutAt(sep: char, a: string, x: string, b: string, y: string)
    requires a + [sep] + x == b + [sep] + y && sep !in a && sep !in b
    ensures a == b && x == y
  {
    var s, t := a + [sep] + x, b + [sep] + y;
    assert s[|a|] == t[|a|] && s[|b|] == t[|b|];
    assert |a| == |b|;
    assert a == s[..|a|] == b && x == s[|a| + 1..] == y;
  }

  predicate DistinctNames(names: seq<string>) {
    && (forall i, j :: 0 <= i < j < |names| ==> names[i] != names[j])
    && (forall i :: 0 <= i < |names| ==> NUL !in names[i])
  }

  /** The text starts with the name of an artifact that is there. */
  lemma {:induction false} FirstName(digest: Bytes -> string, names: seq<string>, files: map<string, Bytes>)
    ensures var text := OuterText(digest, names, files);
            text == "" || exists i, rest :: 0 <= i < |names| && names[i] in files && text == names[i] + [NUL] + rest
  {
    if names != [] {
      var tail := OuterText(digest, names[1..], files);
      if names[0] in files {
        var rest := digest(files[names[0]]) + [LF] + tail;
        assert OuterText(digest, names, files) == names[0] + [NUL] + rest;
      } else {
        FirstName(digest, names[1..], files);
        assert OuterText(digest, names, files) == tail;
        if tail != "" {
          var i, rest :| 0 <= i < |names[1..]| && names[1..][i] in files && tail == names[1..][i] + [NUL] + rest;
          assert names[i + 1] in files && tail == names[i + 1] + [NUL] + rest;
        }
      }
    }
  }

  lemma HeadIsThere(digest: Bytes -> string, names: seq<string>, f: map<string, Bytes>, g: map<string, Bytes>)
    requires DistinctNames(names) && names != [] && names[0] in f
    requires OuterText(digest, names, f) == OuterText(digest, names, g)
    ensures names[0] in g
  {
    if names[0] !in g {
      var text, tail := OuterText(digest, names, f), OuterText(digest, names[1..], g);
      var rest := digest(f[names[0]]) + [LF] + OuterText(digest, names[1..], f);
      assert text == names[0] + [NUL] + rest;
      assert text == tail;
      FirstName(digest, names[1..], g);
      var i, rest' :| 0 <= i < |names[1..]| && tail == names[1..][i] + [NUL] + rest';
      assert names[1..][i] == names[i + 1];
      CutAt(NUL, names[0], rest, names[i + 1], rest');
      assert false;
    }
  }

  lemma TextStep(digest: Bytes -> string, names: seq<string>, files: map<string, Bytes>)
    requires names != []
    ensures OuterText(digest, names, files) == Part(digest, names[0], files) + OuterText(digest, names[1..], files)
  {
  }

  /** The first artifact is read off both texts, and what comes behind it is the same. */
  lemma TailsAgree(digest: Bytes -> string, n: string, f: map<string, Bytes>, g: map<string, Bytes>,
                   ft: string, gt: string)
    requires DigestIsInjective(digest) && DigestIsPlain(digest) && NUL !in n && (n in f <==> n in g)
    requires Part(digest, n, f) + ft == Part(digest, n, g) + gt
    ensures ft == gt && (n in f ==> f[n] == g[n])
  {
    if n in f {
      var x, y := digest(f[n]), digest(g[n]);
      assert Part(digest, n, f) + ft == n + [NUL] + (x + [LF] + ft);
      assert Part(digest, n, g) + gt == n + [NUL] + (y + [LF] + gt);
      CutAt(NUL, n, x + [LF] + ft, n, y + [LF] + gt);
      CutAt(LF, x, ft, y, gt);
    } else {
      assert "" + ft == ft && "" + gt == gt;
    }
  }

  lemma TailIsDistinct(names: seq<string>)
    requires DistinctNames(names) && names != []
    ensures NUL !in names[0] && DistinctNames(names[1..])
  {
    var tail := names[1..];
    assert forall i :: 0 <= i < |tail| ==> tail[i] == names[i + 1];
  }

  /** The hashed text determines the directory: which of the artifacts exist, and their bytes. */
  lemma {:induction false} OuterTextIsInjective(digest: Bytes -> string, names: seq<string>,
                                                f: map<string, Bytes>, g: map<string, Bytes>)
    requires DigestIsInjective(digest) && DigestIsPlain(digest) && DistinctNames(names)
    requires OuterText(digest, names, f) == OuterText(digest, names, g)
    ensures forall n :: n in names ==> (n in f <==> n in g) && (n in f ==> f[n] == g[n])
  {
    hide OuterText, Part, DigestIsInjective, DigestIsPlain, DistinctNames;
    if names != [] {
      var n, tail := names[0], names[1..];
      TailIsDistinct(names);
      TextStep(digest, names, f);
      TextStep(digest, names, g);
      if n in f {
        HeadIsThere(digest, names, f, g);
      } else if n in g {
        HeadIsThere(digest, names, g, f);
      }
      TailsAgree(digest, n, f, g, OuterText(digest, tail, f), OuterText(digest, tail, g));
      OuterTextIsInjective(digest, tail, f, g);
      assert names == [n] + tail;
    }
  }

  /** The artifacts of a directory as the files of that name. */
  function ArtifactFiles(a: Artifacts): map<string, Bytes> {
    var kernel: map<string, Bytes> := if a.kernel.Some? then map[KERNEL := a.kernel.value] else map[];
    if a.initrd.Some? then kernel[INITRD := a.initrd.value] else kernel
  }

  function ContentKey(sha: string -> string, digest: Bytes -> string): Hash {
    (a: Artifacts) => sha(OuterText(digest, ARTIFACTS, ArtifactFiles(a)))
  }

  lemma ArtifactFilesAreDistinct(a: Artifacts, b: Artifacts)
    requires forall n :: n in ARTIFACTS ==>
               (n in ArtifactFiles(a) <==> n in ArtifactFiles(b)) &&
               (n in ArtifactFiles(a) ==> ArtifactFiles(a)[n] == ArtifactFiles(b)[n])
    ensures a == b
  {
    assert KERNEL in ARTIFACTS && INITRD in ARTIFACTS;
    assert KERNEL[0] != INITRD[0];
  }

  /** The size recorded with a content key is that of the artifacts it covers. */
  lemma SizeIsRecorded(a: Artifacts)
    ensures TotalSize(ARTIFACTS, ArtifactFiles(a)) == Size(a)
  {
    var files := ArtifactFiles(a);
    assert KERNEL[0] != INITRD[0];
    assert ARTIFACTS[1..] == [INITRD] && [INITRD][1..] == [];
    assert TotalSize([INITRD], files) == (if INITRD in files then |files[INITRD]| else 0) + TotalSize([], files);
  }

  /** The content key is injective, as the cache requires of its hash. */
  lemma ContentKeyIsInjective(sha: string -> string, digest: Bytes -> string)
    requires TextIsInjective(sha) && DigestIsInjective(digest) && DigestIsPlain(digest)
    ensures Injective(ContentKey(sha, digest))
  {
    assert DistinctNames(ARTIFACTS) by {
      assert KERNEL[0] != INITRD[0];
    }
    var h := ContentKey(sha, digest);
    forall a, b | h(a) == h(b)
      ensures a == b
    {
      OuterTextIsInjective(digest, ARTIFACTS, ArtifactFiles(a), ArtifactFiles(b));
      ArtifactFilesAreDistinct(a, b);
    }
  }

  // ---- Build keys ----

  type Spec = map<string, string>

  /** The encoder tells any two specifications apart whose texts it encodes faithfully. */
  ghost predicate EncodesFaithfully(json: Spec -> string, valid: string -> bool) {
    forall s: Spec, t: Spec :: AllValid(valid, s) && AllValid(valid, t) && json(s) == json(t) ==> s == t
  }

  ghost predicate AllValid(valid: string -> bool, s: Spec) {
    forall k :: k in s ==> valid(s[k])
  }

  /** generateBuildKeyFromOCIRef. */
  function OciSpec(manifest: string): Spec {
    map["kind" := "OCI", "digest" := manifest]
  }

  datatype Origin = Origin(commit: string, workdir: string, command: string)

  /** generateBuildKeyFromRemoteRepo: no specification without a command. `clean` is path.Clean. */
  function GitSpec(clean: string -> string, b: Origin): Option<Spec> {
    var fields := Fields(b.command);
    if fields == [] then None
    else
      Some(map["kind" := "GIT", "sha" := b.commit, "workdir" := clean("/" + b.workdir), "command" := Join(NUL, fields)])
  }

  /** hashSpec. */
  function BuildKey(sha: string -> string, json: Spec -> string, spec: Spec): string {
    sha(json(spec))
  }

  /** Two GIT specifications are equal exactly when commit, cleaned directory and command
      agree, where the command counts broken up at white space and at NUL. */
  lemma GitSpecsEqualExactly(clean: string -> string, a: Origin, b: Origin)
    requires GitSpec(clean, a).Some? && GitSpec(clean, b).Some?
    ensures GitSpec(clean, a) == GitSpec(clean, b) <==>
            && a.commit == b.commit
            && clean("/" + a.workdir) == clean("/" + b.workdir)
            && Pieces(NUL, Fields(a.command)) == Pieces(NUL, Fields(b.command))
  {
    hide Fields, Join, Pieces;
    JoinedExactly(NUL, Fields(a.command), Fields(b.command));
    var s, t := GitSpec(clean, a).value, GitSpec(clean, b).value;
    if s == t {
      assert s["sha"] == t["sha"] && s["workdir"] == t["workdir"] && s["command"] == t["command"];
    }
  }

  lemma NulFreeFields(command: string)
    requires NUL !in command
    ensures Pieces(NUL, Fields(command)) == Fields(command)
  {
    FieldsAreWords("", command);
    NoSepPieces(NUL, Fields(command));
  }

  /** The build key identifies the build: with commands free of NUL, two builds share it
      exactly when commit, cleaned directory and the list of fields are the same. */
  lemma BuildKeyIdentifiesBuild(sha: string -> string, json: Spec -> string, valid: string -> bool,
                                clean: string -> string, a: Origin, b: Origin)
    requires TextIsInjective(sha) && EncodesFaithfully(json, valid)
    requires GitSpec(clean, a).Some? && GitSpec(clean, b).Some?
    requires AllValid(valid, GitSpec(clean, a).value) && AllValid(valid, GitSpec(clean, b).value)
    requires NUL !in a.command && NUL !in b.command
    ensures BuildKey(sha, json, GitSpec(clean, a).value) == BuildKey(sha, json, GitSpec(clean, b).value) <==>
            && a.commit == b.commit
            && clean("/" + a.workdir) == clean("/" + b.workdir)
            && Fields(a.command) == Fields(b.command)
  {
    hide Fields, Pieces, GitSpec;
    GitSpecsEqualExactly(clean, a, b);
    NulFreeFields(a.command);
    NulFreeFields(b.command);
  }

  /** A built image and a pulled one never share a build key, and pulled ones share it
      exactly when their manifests agree. */
  lemma KindsAreApart(sha: string -> string, json: Spec -> string, valid: string -> bool,
                      clean: string -> string, a: Origin, m: string, n: string)
    requires TextIsInjective(sha) && EncodesFaithfully(json, valid) && GitSpec(clean, a).Some?
    requires AllValid(valid, GitSpec(clean, a).value) && AllValid(valid, OciSpec(m)) && AllValid(valid, OciSpec(n))
    ensures BuildKey(sha, json, GitSpec(clean, a).value) != BuildKey(sha, json, OciSpec(m))
    ensures BuildKey(sha, json, OciSpec(m)) == BuildKey(sha, json, OciSpec(n)) <==> m == n
  {
    assert GitSpec(clean, a).value["kind"] != OciSpec(m)["kind"];
    if BuildKey(sha, json, OciSpec(m)) == BuildKey(sha, json, OciSpec(n)) {
      assert OciSpec(m)["digest"] == OciSpec(n)["digest"];
    }
  }

  lemma TwoFields()
    ensures Fields("a b") == ["a", "b"] && Join(NUL, ["a", "b"]) == "a\0b"
  {
    hide FieldsAfter, Join;
    JoinTwo(NUL, "a", "b");
    FieldsStep("", 'a', " b");
    FieldsStep("a", ' ', "b");
    FieldsStep("", 'b', "");
    FieldsStep("b", 'b', "");
    assert ['a'] + " b" == "a b" && [' '] + "b" == " b" && ['b'] + "" == "b" && "" + ['a'] == "a" && "" + ['b'] == "b";
  }

  lemma OneField()
    ensures Fields("a\0b") == ["a\0b"] && Join(NUL, ["a\0b"]) == "a\0b"
  {
    hide FieldsAfter;
    FieldsStep("", 'a', "\0b");
    FieldsStep("a", NUL, "b");
    FieldsStep("a\0", 'b', "");
    FieldsStep("a\0b", 'b', "");
    assert ['a'] + "\0b" == "a\0b" && [NUL] + "b" == "\0b" && ['b'] + "" == "b";
    assert "" + ['a'] == "a" && "a" + [NUL] == "a\0" && "a\0" + ['b'] == "a\0b";
  }

  /** A NUL in a command defeats the separator: these two commands have different fields
      and the same specification. */
  lemma NulDefeatsTheSeparator(clean: string -> string, commit: string, workdir: string)
    ensures var a, b := Origin(commit, workdir, "a b"), Origin(commit, workdir, "a\0b");
            Fields(a.command) != Fields(b.command) && GitSpec(clean, a) == GitSpec(clean, b)
  {
    hide FieldsAfter, Join;
    TwoFields();
    OneField();
  }
}
