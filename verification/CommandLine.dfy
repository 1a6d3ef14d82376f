/// The command line of kraft run (internal/engine/run.go): what BuildArgs writes, and
/// what kraft reads from it. The reading side is an assumption on kraft: a flag takes the
/// word behind it whole, without splitting it further.
module CommandLine {
  datatype Option<T> = None | Some(value: T)

  const ROOTFS_MOUNT := "\"vfs.fstab=[ \"\"initrd0:/:extract:::\"\" ]\""

  const NETWORK := "--network"
  const MEMORY := "--memory"
  const REMOVE := "--rm"
  const DETACH := "--detach"
  const PLAIN := "--disable-acceleration"
  const VOLUME := "--volume"
  const ENV := "--env"
  const NAME := "--name"
  const ROOTFS := "--rootfs"
  const KERNEL_ARG := "--kernel-arg"

  const SWITCHES := [REMOVE, DETACH, PLAIN]
  const VALUED := [NETWORK, MEMORY, VOLUME, ENV, NAME, ROOTFS, KERNEL_ARG]

  /** One run of kraft. An empty text stands for a flag that is not given; `tail` is what
      follows the kernel. */
  datatype Options = Options(
    network: string,
    memory: string,
    remove: bool,
    detached: bool,
    plain: bool,
    volumes: seq<string>,
    envs: seq<string>,
    name: string,
    rootfs: string,
    mount: string,
    kernel: string,
    tail: seq<string>)

  const NO_OPTIONS := Options("", "", false, false, false, [], [], "", "", "", "", [])

  // ---- Writing ----

  function Given(flag: string, value: string): seq<string> {
    if value == "" then [] else [flag, value]
  }

  function Switched(flag: string, on: bool): seq<string> {
    if on then [flag] else []
  }

  function Each(flag: string, values: seq<string>): seq<string> {
    if values == [] then [] else [flag, values[0]] + Each(flag, values[1..])
  }

  lemma {:induction false} EachOfBoth(flag: string, values: seq<string>, more: seq<string>)
    ensures Each(flag, values + more) == Each(flag, values) + Each(flag, more)
  {
    if values == [] {
      assert values + more == more;
    } else {
      EachOfBoth(flag, values[1..], more);
      assert (values + more)[1..] == values[1..] + more;
    }
  }

  lemma OneMoreValue(flag: string, values: seq<string>, value: string)
    ensures Each(flag, values + [value]) == Each(flag, values) + [flag, value]
  {
    EachOfBoth(flag, values, [value]);
    assert [value][1..] == [];
  }

  /** Appending the next piece of what is still to be written. */
  lemma Append(args: seq<string>, piece: seq<string>, rest: seq<string>, all: seq<string>)
    requires args + (piece + rest) == all
    ensures (args + piece) + rest == all
  {
    assert (args + piece) + rest == args + (piece + rest);
  }

  /** The arguments behind "run --no-prompt", in the order they are written. */
  function FlagsOf(o: Options): seq<string> {
    Given(NETWORK, o.network) + (Given(MEMORY, o.memory)
    + (Switched(REMOVE, o.remove) + (Switched(DETACH, o.detached) + (Switched(PLAIN, o.plain)
    + (Each(VOLUME, o.volumes) + (Each(ENV, o.envs) + ([NAME, o.name]
    + (Given(ROOTFS, o.rootfs) + (Given(KERNEL_ARG, o.mount) + ([o.kernel] + o.tail))))))))))
  }

  function ArgsOf(o: Options): seq<string> {
    ["run", "--no-prompt"] + FlagsOf(o)
  }

  /** The arguments as BuildArgs appends them, one after the other: the switches first. */
  function Head(o: Options): seq<string> {
    ["run", "--no-prompt"] + Given(NETWORK, o.network) + Given(MEMORY, o.memory)
    + Switched(REMOVE, o.remove) + Switched(DETACH, o.detached) + Switched(PLAIN, o.plain)
  }

  /** Then the rest. */
  function InOrder(o: Options): seq<string> {
    Head(o) + Each(VOLUME, o.volumes) + Each(ENV, o.envs) + [NAME, o.name]
    + Given(ROOTFS, o.rootfs) + Given(KERNEL_ARG, o.mount) + [o.kernel] + o.tail
  }

  lemma HeadComesFirst(o: Options)
    ensures ArgsOf(o) == Head(o) + LaterFlags(o)
  {
    var all, args := ArgsOf(o), ["run", "--no-prompt"];
    var r5 := LaterFlags(o);
    var r4 := Switched(PLAIN, o.plain) + r5;
    var r3 := Switched(DETACH, o.detached) + r4;
    var r2 := Switched(REMOVE, o.remove) + r3;
    var r1 := Given(MEMORY, o.memory) + r2;
    assert all == args + (Given(NETWORK, o.network) + r1);
    assert Head(o) == args + Given(NETWORK, o.network) + Given(MEMORY, o.memory)
                    + Switched(REMOVE, o.remove) + Switched(DETACH, o.detached) + Switched(PLAIN, o.plain);
    hide *;
    Append(args, Given(NETWORK, o.network), r1, all);
    args := args + Given(NETWORK, o.network);
    Append(args, Given(MEMORY, o.memory), r2, all);
    args := args + Given(MEMORY, o.memory);
    Append(args, Switched(REMOVE, o.remove), r3, all);
    args := args + Switched(REMOVE, o.remove);
    Append(args, Switched(DETACH, o.detached), r4, all);
    args := args + Switched(DETACH, o.detached);
    Append(args, Switched(PLAIN, o.plain), r5, all);
  }

  lemma OrderIsArgs(o: Options)
    ensures InOrder(o) == ArgsOf(o)
  {
    HeadComesFirst(o);
    var all, args := ArgsOf(o), Head(o);
    var r3 := [o.kernel] + o.tail;
    var r2 := Given(KERNEL_ARG, o.mount) + r3;
    var r1 := Given(ROOTFS, o.rootfs) + r2;
    var r0 := [NAME, o.name] + r1;
    assert LaterFlags(o) == Each(VOLUME, o.volumes) + (Each(ENV, o.envs) + r0);
    assert InOrder(o) == args + Each(VOLUME, o.volumes) + Each(ENV, o.envs) + [NAME, o.name]
                       + Given(ROOTFS, o.rootfs) + Given(KERNEL_ARG, o.mount) + [o.kernel] + o.tail;
    hide *;
    Append(args, Each(VOLUME, o.volumes), Each(ENV, o.envs) + r0, all);
    args := args + Each(VOLUME, o.volumes);
    Append(args, Each(ENV, o.envs), r0, all);
    args := args + Each(ENV, o.envs);
    Append(args, [NAME, o.name], r1, all);
    args := args + [NAME, o.name];
    Append(args, Given(ROOTFS, o.rootfs), r2, all);
    args := args + Given(ROOTFS, o.rootfs);
    Append(args, Given(KERNEL_ARG, o.mount), r3, all);
    args := args + Given(KERNEL_ARG, o.mount);
    Append(args, [o.kernel], o.tail, all);
  }

  // ---- Reading ----

  function Switch(o: Options, flag: string): Options {
    if flag == REMOVE then o.(remove := true)
    else if flag == DETACH then o.(detached := true)
    else o.(plain := true)
  }

  function Set(o: Options, flag: string, value: string): Options {
    if flag == NETWORK then o.(network := value)
    else if flag == MEMORY then o.(memory := value)
    else if flag == VOLUME then o.(volumes := o.volumes + [value])
    else if flag == ENV then o.(envs := o.envs + [value])
    else if flag == NAME then o.(name := value)
    else if flag == ROOTFS then o.(rootfs := value)
    else o.(mount := value)
  }

  /** Flags, a valued one with whatever follows it, up to the first other word: the kernel. */
  function Read(args: seq<string>, o: Options): Option<Options>
    decreases |args|
  {
    if args == [] then None
    else if args[0] in SWITCHES then Read(args[1..], Switch(o, args[0]))
    else if args[0] in VALUED then if |args| == 1 then None else Read(args[2..], Set(o, args[0], args[1]))
    else Some(o.(kernel := args[0], tail := args[1..]))
  }

  /** A flag that is given or left out sets its field, if that was empty. */
  function SetGiven(o: Options, flag: string, value: string): Options {
    if value == "" then o else Set(o, flag, value)
  }

  lemma ReadGiven(flag: string, value: string, rest: seq<string>, o: Options)
    requires flag in VALUED
    ensures Read(Given(flag, value) + rest, o) == Read(rest, SetGiven(o, flag, value))
  {
    hide Set;
    if value == "" {
      assert Given(flag, value) + rest == rest;
    } else {
      assert flag !in SWITCHES by {
        assert forall v :: v in VALUED ==> v !in SWITCHES;
      }
      assert (Given(flag, value) + rest)[2..] == rest;
    }
  }

  lemma ReadName(value: string, rest: seq<string>, o: Options)
    ensures Read([NAME, value] + rest, o) == Read(rest, o.(name := value))
  {
    assert NAME[2] == 'n' && NAME[3] == 'a' && NETWORK[3] == 'e';
    assert MEMORY[2] == 'm' && VOLUME[2] == 'v' && ENV[2] == 'e';
    assert REMOVE[2] == 'r' && DETACH[2] == 'd' && PLAIN[3] == 'i';
    assert ([NAME, value] + rest)[2..] == rest;
  }

  function SwitchGiven(o: Options, flag: string, on: bool): Options {
    if on then Switch(o, flag) else o
  }

  lemma ReadSwitched(flag: string, on: bool, rest: seq<string>, o: Options)
    requires flag in SWITCHES
    ensures Read(Switched(flag, on) + rest, o) == Read(rest, SwitchGiven(o, flag, on))
  {
    hide Switch;
    if on {
      assert (Switched(flag, on) + rest)[1..] == rest;
    } else {
      assert Switched(flag, on) + rest == rest;
    }
  }

  function SetEach(o: Options, flag: string, values: seq<string>): Options
    decreases |values|
  {
    if values == [] then o else SetEach(Set(o, flag, values[0]), flag, values[1..])
  }

  lemma {:induction false} ReadEach(flag: string, values: seq<string>, rest: seq<string>, o: Options)
    requires flag == VOLUME || flag == ENV
    ensures Read(Each(flag, values) + rest, o) == Read(rest, SetEach(o, flag, values))
  {
    hide Set;
    if values == [] {
      assert Each(flag, values) + rest == rest;
    } else {
      var more := Each(flag, values[1..]) + rest;
      assert Each(flag, values) + rest == [flag, values[0]] + more;
      assert ([flag, values[0]] + more)[2..] == more;
      ReadEach(flag, values[1..], rest, Set(o, flag, values[0]));
    }
  }

  lemma {:induction false} VolumesSet(o: Options, values: seq<string>)
    ensures SetEach(o, VOLUME, values) == o.(volumes := o.volumes + values)
    decreases |values|
  {
    if values == [] {
      assert o.volumes + [] == o.volumes;
    } else {
      VolumesSet(Set(o, VOLUME, values[0]), values[1..]);
      assert o.volumes + [values[0]] + values[1..] == o.volumes + values;
    }
  }

  lemma {:induction false} EnvsSet(o: Options, values: seq<string>)
    ensures SetEach(o, ENV, values) == o.(envs := o.envs + values)
    decreases |values|
  {
    if values == [] {
      assert o.envs + [] == o.envs;
    } else {
      EnvsSet(Set(o, ENV, values[0]), values[1..]);
      assert o.envs + [values[0]] + values[1..] == o.envs + values;
    }
  }

  predicate IsFlag(word: string) {
    word in SWITCHES || word in VALUED
  }

  lemma ReadKernel(o: Options, p: Options)
    requires !IsFlag(o.kernel) && p == o.(kernel := "", tail := [])
    ensures Read([o.kernel] + o.tail, p) == Some(o)
  {
    assert ([o.kernel] + o.tail)[1..] == o.tail;
  }

  /** The flags set one field each. */
  lemma FlagsAreApart(o: Options, value: string, on: bool)
    ensures o.network == "" ==> SetGiven(o, NETWORK, value) == o.(network := value)
    ensures o.memory == "" ==> SetGiven(o, MEMORY, value) == o.(memory := value)
    ensures o.rootfs == "" ==> SetGiven(o, ROOTFS, value) == o.(rootfs := value)
    ensures o.mount == "" ==> SetGiven(o, KERNEL_ARG, value) == o.(mount := value)
    ensures !o.remove ==> SwitchGiven(o, REMOVE, on) == o.(remove := on)
    ensures !o.detached ==> SwitchGiven(o, DETACH, on) == o.(detached := on)
    ensures !o.plain ==> SwitchGiven(o, PLAIN, on) == o.(plain := on)
  {
    assert NETWORK[2] == 'n' && MEMORY[2] == 'm' && VOLUME[2] == 'v' && ENV[2] == 'e';
    assert NAME[3] == 'a' && NETWORK[3] == 'e' && ROOTFS[2] == 'r' && KERNEL_ARG[2] == 'k';
    assert REMOVE[3] == 'm' && DETACH[2] == 'd' && PLAIN[3] == 'i' && DETACH[3] == 'e';
  }

  /** The flags from the name on. */
  function LastFlags(o: Options): seq<string> {
    [NAME, o.name] + (Given(ROOTFS, o.rootfs) + (Given(KERNEL_ARG, o.mount) + ([o.kernel] + o.tail)))
  }

  lemma ReadLast(o: Options)
    requires !IsFlag(o.kernel)
    ensures Read(LastFlags(o), o.(name := "", rootfs := "", mount := "", kernel := "", tail := [])) == Some(o)
  {
    var r0 := [o.kernel] + o.tail;
    var r1 := Given(KERNEL_ARG, o.mount) + r0;
    var r2 := Given(ROOTFS, o.rootfs) + r1;
    assert LastFlags(o) == [NAME, o.name] + r2;
    hide *;
    var p := o.(name := "", rootfs := "", mount := "", kernel := "", tail := []);
    ReadName(o.name, r2, p);
    p := p.(name := o.name);
    ReadGiven(ROOTFS, o.rootfs, r1, p);
    FlagsAreApart(p, o.rootfs, false);
    p := p.(rootfs := o.rootfs);
    ReadGiven(KERNEL_ARG, o.mount, r0, p);
    FlagsAreApart(p, o.mount, false);
    p := p.(mount := o.mount);
    ReadKernel(o, p);
  }

  /** The flags from the volumes on. */
  function LaterFlags(o: Options): seq<string> {
    Each(VOLUME, o.volumes) + (Each(ENV, o.envs) + LastFlags(o))
  }

  lemma ReadLater(o: Options, p: Options)
    requires !IsFlag(o.kernel)
    requires p == o.(volumes := [], envs := [], name := "", rootfs := "", mount := "", kernel := "", tail := [])
    ensures Read(LaterFlags(o), p) == Some(o)
  {
    assert LaterFlags(o) == Each(VOLUME, o.volumes) + (Each(ENV, o.envs) + LastFlags(o));
    hide *;
    assert [] + o.volumes == o.volumes && [] + o.envs == o.envs;
    ReadEach(VOLUME, o.volumes, Each(ENV, o.envs) + LastFlags(o), p);
    VolumesSet(p, o.volumes);
    ReadEach(ENV, o.envs, LastFlags(o), p.(volumes := o.volumes));
    EnvsSet(p.(volumes := o.volumes), o.envs);
    ReadLast(o);
  }

  /** kraft reads back exactly what was written, whatever the values look like, as long as
      the kernel's path is not itself a flag. */
  lemma ReadBack(o: Options)
    requires !IsFlag(o.kernel)
    ensures Read(FlagsOf(o), NO_OPTIONS) == Some(o)
  {
    var r5 := LaterFlags(o);
    var r6 := Switched(PLAIN, o.plain) + r5;
    var r7 := Switched(DETACH, o.detached) + r6;
    var r8 := Switched(REMOVE, o.remove) + r7;
    var r9 := Given(MEMORY, o.memory) + r8;
    assert FlagsOf(o) == Given(NETWORK, o.network) + r9;
    hide *;
    var p := NO_OPTIONS;
    ReadGiven(NETWORK, o.network, r9, p);
    FlagsAreApart(p, o.network, false);
    p := p.(network := o.network);
    ReadGiven(MEMORY, o.memory, r8, p);
    FlagsAreApart(p, o.memory, false);
    p := p.(memory := o.memory);
    ReadSwitched(REMOVE, o.remove, r7, p);
    FlagsAreApart(p, "", o.remove);
    p := p.(remove := o.remove);
    ReadSwitched(DETACH, o.detached, r6, p);
    FlagsAreApart(p, "", o.detached);
    p := p.(detached := o.detached);
    ReadSwitched(PLAIN, o.plain, r5, p);
    FlagsAreApart(p, "", o.plain);
    p := p.(plain := o.plain);
    ReadLater(o, p);
  }
}
