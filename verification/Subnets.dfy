/// The broker bridge's subnet (internal/resolver/networks.go): the exact arithmetic of
/// IPv4 prefixes (section 3.1 of RFC 4632) behind the bytewise checks.
///
/// Addresses are four bytes, or sixteen for an IPv4-mapped prefix, which net.ParseCIDR
/// keeps in its long form; masks are those of a prefix length.
module Subnets {
  type Byte = bv8

  // ---- Arithmetic ----

  function Pow2(k: nat): (r: nat)
    ensures r > 0
  {
    if k == 0 then 1 else 2 * Pow2(k - 1)
  }

  lemma {:induction false} Pow2Adds(a: nat, b: nat)
    ensures Pow2(a + b) == Pow2(a) * Pow2(b)
  {
    if a > 0 {
      Pow2Adds(a - 1, b);
    }
  }

  lemma AtLeastOnce(d: int, e: int)
    requires d > 0 && e >= 1
    ensures d * e >= d
  {
  }

  lemma SmallMultiple(d: int, e: int)
    requires d > 0 && -d < d * e < d
    ensures e == 0
  {
  }

  lemma DivUnique(x: int, d: int, q: int, r: int)
    requires 0 <= r < d && x == d * q + r
    ensures x / d == q && x % d == r
  {
    var q', r' := x / d, x % d;
    assert x == d * q' + r';
    assert d * (q - q') == r' - r;
    SmallMultiple(d, q - q');
  }

  lemma ModOfMultiple(v: int, m: int, low: int, b: int)
    requires low > 0
    ensures (v * (m * low) + b) % low == b % low
  {
    var q, r := b / low, b % low;
    assert b == low * q + r;
    assert v * (m * low) + b == low * (v * m + q) + r;
    DivUnique(v * (m * low) + b, low, v * m + q, r);
  }

  lemma ModOfShift(v: int, m: int, b: int)
    requires m > 0 && 0 <= b < 256
    ensures (v * 256 + b) % (m * 256) == v % m * 256 + b
  {
    var q, r := v / m, v % m;
    assert v == m * q + r;
    assert v * 256 + b == (m * 256) * q + (r * 256 + b);
    DivUnique(v * 256 + b, m * 256, q, r * 256 + b);
  }

  /** Blocks of a size that divides another are nested in its blocks. */
  lemma BlocksNest(x: int, z: int, a: int, k: int)
    requires a > 0 && k > 0 && x / a == z / a
    ensures x / (a * k) == z / (a * k)
  {
    DivTwice(x, a, k);
    DivTwice(z, a, k);
  }

  lemma Regroup(a: int, k: int, q: int, r: int)
    ensures a * (k * q + r) == (a * k) * q + a * r
  {
  }

  lemma DigitsBelow(a: int, k: int, r: int, r': int)
    requires 0 <= r < a && 0 <= r' < k
    ensures 0 <= a * r' + r < a * k
  {
    assert a * k == a * r' + a * (k - r');
    AtLeastOnce(a, k - r');
    assert a * r' >= 0;
  }

  lemma DivTwice(x: int, a: int, k: int)
    requires a > 0 && k > 0
    ensures a * k > 0 && x / (a * k) == x / a / k
  {
    var q, r := x / a, x % a;
    var q', r' := q / k, q % k;
    assert x == a * q + r && q == k * q' + r';
    Regroup(a, k, q', r');
    DigitsBelow(a, k, r, r');
    DivUnique(x, a * k, q', a * r' + r);
  }

  // ---- Bytes and masks ----

  /** The byte of a mask whose first k bits are set. */
  function MaskByte(k: nat): Byte
    requires k <= 8
  {
    match k
    case 0 => 0x00
    case 1 => 0x80
    case 2 => 0xc0
    case 3 => 0xe0
    case 4 => 0xf0
    case 5 => 0xf8
    case 6 => 0xfc
    case 7 => 0xfe
    case 8 => 0xff
  }

  function LowBits(k: nat): (low: nat)
    requires k <= 8
    ensures low > 0
  {
    match k
    case 0 => 256
    case 1 => 128
    case 2 => 64
    case 3 => 32
    case 4 => 16
    case 5 => 8
    case 6 => 4
    case 7 => 2
    case 8 => 1
  }

  lemma LowBitsArePow2(k: nat)
    requires k <= 8
    ensures LowBits(k) == Pow2(8 - k)
  {
    assert Pow2(1) == 2 && Pow2(2) == 4 && Pow2(3) == 8 && Pow2(4) == 16;
    assert Pow2(5) == 32 && Pow2(6) == 64 && Pow2(7) == 128 && Pow2(8) == 256;
  }

  function ByteValue(b: Byte): (v: int)
    ensures 0 <= v < 256
  {
    b as int
  }

  /** A byte with all but its first k bits cleared. */
  function ClearLow(b: int, k: nat): int
    requires k <= 8
  {
    b - b % LowBits(k)
  }

  /** The mask clears the part of a byte below `low`, and the fill sets it. */
  predicate Splits(b: Byte, mask: Byte, fill: Byte, low: nat)
    requires low > 0
  {
    && ByteValue(b & mask) == ByteValue(b) - ByteValue(b) % low
    && ByteValue(b | fill) == ByteValue(b) - ByteValue(b) % low + low - 1
  }

  lemma Split0(b: Byte)
    ensures Splits(b, 0x00, 0xff, 256)
  {
  }

  lemma Split1(b: Byte)
    ensures Splits(b, 0x80, 0x7f, 128)
  {
  }

  lemma Split2(b: Byte)
    ensures Splits(b, 0xc0, 0x3f, 64)
  {
  }

  lemma Split3(b: Byte)
    ensures Splits(b, 0xe0, 0x1f, 32)
  {
  }

  lemma Split4(b: Byte)
    ensures Splits(b, 0xf0, 0x0f, 16)
  {
  }

  lemma Split5(b: Byte)
    ensures Splits(b, 0xf8, 0x07, 8)
  {
  }

  lemma Split6(b: Byte)
    ensures Splits(b, 0xfc, 0x03, 4)
  {
  }

  lemma Split7(b: Byte)
    ensures Splits(b, 0xfe, 0x01, 2)
  {
  }

  lemma Split8(b: Byte)
    ensures Splits(b, 0xff, 0x00, 1)
  {
  }

  lemma InvertedMask(k: nat)
    requires k <= 8
    ensures !MaskByte(k) == match k case 0 => 0xff case 1 => 0x7f case 2 => 0x3f case 3 => 0x1f case 4 => 0x0f
                                    case 5 => 0x07 case 6 => 0x03 case 7 => 0x01 case 8 => 0x00
  {
  }

  /** Masking clears the low bits of a byte; filling with the inverted mask sets them. */
  lemma ByteParts(b: Byte, k: nat)
    requires k <= 8
    ensures Splits(b, MaskByte(k), !MaskByte(k), LowBits(k))
  {
    hide ByteValue, Splits;
    InvertedMask(k);
    match k
    case 0 => Split0(b);
    case 1 => Split1(b);
    case 2 => Split2(b);
    case 3 => Split3(b);
    case 4 => Split4(b);
    case 5 => Split5(b);
    case 6 => Split6(b);
    case 7 => Split7(b);
    case 8 => Split8(b);
  }

  // ---- Addresses ----

  /** The number a string of bytes stands for, most significant byte first. */
  function Value(s: seq<Byte>): (v: nat)
  {
    if s == [] then 0 else Value(s[..|s| - 1]) * 256 + ByteValue(s[|s| - 1])
  }

  /** How many of the first p bits fall into byte i. */
  function MaskBits(p: nat, i: nat): (k: nat)
    ensures k <= 8
  {
    if p >= 8 * (i + 1) then 8 else if p <= 8 * i then 0 else p - 8 * i
  }

  function Mask(p: nat, n: nat): seq<Byte> {
    seq(n, i requires 0 <= i < n => MaskByte(MaskBits(p, i)))
  }

  function Masked(s: seq<Byte>, p: nat): seq<Byte> {
    seq(|s|, i requires 0 <= i < |s| => s[i] & MaskByte(MaskBits(p, i)))
  }

  function Filled(s: seq<Byte>, p: nat): seq<Byte> {
    seq(|s|, i requires 0 <= i < |s| => s[i] | !MaskByte(MaskBits(p, i)))
  }

  /** Addresses in blocks of prefix p, out of n bytes. */
  function BlockSize(p: nat, n: nat): nat
    requires p <= 8 * n
  {
    Pow2(8 * n - p)
  }

  function First(v: int, size: nat): int
    requires size > 0
  {
    v - v % size
  }

  /** The bytewise mask and fill compute the first and the last address of the block. */
  lemma {:induction false} MaskedValue(s: seq<Byte>, p: nat)
    requires p <= 8 * |s|
    ensures Value(Masked(s, p)) == First(Value(s), BlockSize(p, |s|))
    ensures Value(Filled(s, p)) == First(Value(s), BlockSize(p, |s|)) + BlockSize(p, |s|) - 1
  {
    hide Masked, Filled, First, MaskByte, LowBits;
    if s == [] {
      EmptyAddress(p);
    } else {
      var n := |s| - 1;
      MaskedValue(s[..n], if p <= 8 * n then p else 8 * n);
      hide Pow2, BlockSize;
      WholeAddress(s, p);
    }
  }

  lemma EmptyAddress(p: nat)
    requires p == 0
    ensures Masked([], p) == [] && Filled([], p) == []
    ensures First(0, BlockSize(p, 0)) == 0 && BlockSize(p, 0) == 1
  {
  }

  lemma WholeAddress(s: seq<Byte>, p: nat)
    requires s != [] && p <= 8 * |s|
    requires var n := |s| - 1;
             var p' := if p <= 8 * n then p else 8 * n;
             var size := BlockSize(p', n);
             && Value(Masked(s[..n], p')) == First(Value(s[..n]), size)
             && Value(Filled(s[..n], p')) == First(Value(s[..n]), size) + size - 1
    ensures Value(Masked(s, p)) == First(Value(s), BlockSize(p, |s|))
    ensures Value(Filled(s, p)) == First(Value(s), BlockSize(p, |s|)) + BlockSize(p, |s|) - 1
  {
    hide *;
    var n := |s| - 1;
    EarlierBytes(s, p);
    LastBytes(s, p);
    SplitLast(s);
    SplitLast(Masked(s, p));
    SplitLast(Filled(s, p));
    LastByte(Value(s[..n]), ByteValue(s[n]), p, n);
  }

  lemma SplitLast(s: seq<Byte>)
    requires s != []
    ensures Value(s) == Value(s[..|s| - 1]) * 256 + ByteValue(s[|s| - 1])
  {
  }

  lemma LastBytes(s: seq<Byte>, p: nat)
    requires s != []
    ensures var n := |s| - 1;
            var b, k := ByteValue(s[n]), MaskBits(p, n);
            && |Masked(s, p)| == |Filled(s, p)| == n + 1
            && ByteValue(Masked(s, p)[n]) == ClearLow(b, k)
            && ByteValue(Filled(s, p)[n]) == ClearLow(b, k) + LowBits(k) - 1
  {
    hide *;
    var n := |s| - 1;
    var k := MaskBits(p, n);
    BytesAt(s, p, n);
    ByteParts(s[n], k);
    PartsCleared(s[n], MaskByte(k), !MaskByte(k), k);
  }

  lemma BytesAt(s: seq<Byte>, p: nat, i: nat)
    requires i < |s|
    ensures |Masked(s, p)| == |Filled(s, p)| == |s|
    ensures Masked(s, p)[i] == s[i] & MaskByte(MaskBits(p, i))
    ensures Filled(s, p)[i] == s[i] | !MaskByte(MaskBits(p, i))
  {
    hide MaskByte, MaskBits;
  }

  lemma PartsCleared(b: Byte, mask: Byte, fill: Byte, k: nat)
    requires k <= 8 && Splits(b, mask, fill, LowBits(k))
    ensures ByteValue(b & mask) == ClearLow(ByteValue(b), k)
    ensures ByteValue(b | fill) == ClearLow(ByteValue(b), k) + LowBits(k) - 1
  {
  }

  lemma EarlierBytes(s: seq<Byte>, p: nat)
    requires s != [] && p <= 8 * |s|
    ensures var n := |s| - 1;
            var p' := if p <= 8 * n then p else 8 * n;
            Masked(s, p)[..n] == Masked(s[..n], p') && Filled(s, p)[..n] == Filled(s[..n], p')
  {
  }

  /** One more byte: below a byte boundary the block grows by 256, above it splits the byte. */
  lemma LastByte(v: nat, b: int, p: nat, n: nat)
    requires 0 <= b < 256 && p <= 8 * (n + 1)
    ensures var p' := if p <= 8 * n then p else 8 * n;
            var k := MaskBits(p, n);
            var size, size' := BlockSize(p, n + 1), BlockSize(p', n);
            && First(v * 256 + b, size) == First(v, size') * 256 + ClearLow(b, k)
            && size - 1 == (size' - 1) * 256 + (LowBits(k) - 1)
  {
    if p <= 8 * n {
      WholeByte(v, b, p, n);
    } else {
      PartByte(v, b, p, n);
    }
  }

  lemma WholeByte(v: nat, b: int, p: nat, n: nat)
    requires 0 <= b < 256 && p <= 8 * n
    ensures BlockSize(p, n + 1) == 256 * BlockSize(p, n)
    ensures First(v * 256 + b, BlockSize(p, n + 1)) == First(v, BlockSize(p, n)) * 256 + ClearLow(b, 0)
  {
    assert Pow2(8) == 256;
    Pow2Adds(8 * n - p, 8);
    hide Pow2;
    ModOfShift(v, Pow2(8 * n - p), b);
  }

  lemma PartByte(v: nat, b: int, p: nat, n: nat)
    requires 0 <= b < 256 && 8 * n < p <= 8 * (n + 1)
    ensures BlockSize(8 * n, n) == 1 && BlockSize(p, n + 1) == LowBits(p - 8 * n)
    ensures First(v * 256 + b, BlockSize(p, n + 1)) == First(v, 1) * 256 + ClearLow(b, p - 8 * n)
  {
    var k := p - 8 * n;
    LowBitsArePow2(k);
    assert Pow2(8) == 256;
    Pow2Adds(k, 8 - k);
    hide Pow2, LowBits;
    ModOfMultiple(v, Pow2(k), Pow2(8 - k), b);
  }

  lemma {:induction false} ValueIsInjective(s: seq<Byte>, t: seq<Byte>)
    requires |s| == |t| && Value(s) == Value(t)
    ensures s == t
  {
    if s != [] {
      var n := |s| - 1;
      var x, y := ByteValue(s[n]), ByteValue(t[n]);
      DivUnique(Value(s), 256, Value(s[..n]), x);
      DivUnique(Value(t), 256, Value(t[..n]), y);
      ValueIsInjective(s[..n], t[..n]);
      assert s == s[..n] + [s[n]] && t == t[..n] + [t[n]];
    }
  }

  // ---- Subnets ----

  /** net.IPNet: an address and a prefix length. For an interface address the host bits
      may be set; a configured subnet has them cleared. */
  datatype Net = Net(ip: seq<Byte>, prefix: nat)

  predicate IsIPv4(n: Net) {
    |n.ip| == 4 && n.prefix <= 32
  }

  function Size(n: Net): nat
    requires IsIPv4(n)
  {
    BlockSize(n.prefix, 4)
  }

  function Lowest(n: Net): int
    requires IsIPv4(n)
  {
    First(Value(n.ip), Size(n))
  }

  function Highest(n: Net): int
    requires IsIPv4(n)
  {
    Lowest(n) + Size(n) - 1
  }

  /** The two address ranges have an address in common. */
  ghost predicate Intersect(m: Net, n: Net)
    requires IsIPv4(m) && IsIPv4(n)
  {
    exists v :: InRange(v, m) && InRange(v, n)
  }

  predicate InRange(v: int, n: Net)
    requires IsIPv4(n)
  {
    Lowest(n) <= v <= Highest(n)
  }

  /** IPNet.Contains: the addresses agree under the mask, byte by byte. */
  predicate Contains(n: Net, ip: seq<Byte>)
    requires IsIPv4(n) && |ip| == 4
  {
    forall i :: 0 <= i < 4 ==>
      n.ip[i] & MaskByte(MaskBits(n.prefix, i)) == ip[i] & MaskByte(MaskBits(n.prefix, i))
  }

  lemma FirstIsQuotient(v: int, w: int, size: nat)
    requires size > 0
    ensures First(v, size) == First(w, size) <==> v / size == w / size
    ensures First(v, size) <= w < First(v, size) + size <==> v / size == w / size
  {
    assert v == size * (v / size) + v % size;
    assert w == size * (w / size) + w % size;
    assert First(v, size) == size * (v / size);
    if First(v, size) <= w < First(v, size) + size {
      DivUnique(w, size, v / size, w - First(v, size));
    }
  }

  lemma ContainsIsMasked(n: Net, ip: seq<Byte>)
    requires IsIPv4(n) && |ip| == 4
    ensures Contains(n, ip) <==> Masked(n.ip, n.prefix) == Masked(ip, n.prefix)
  {
    hide MaskByte, MaskBits;
    if Masked(n.ip, n.prefix) == Masked(ip, n.prefix) {
      forall i | 0 <= i < 4
        ensures n.ip[i] & MaskByte(MaskBits(n.prefix, i)) == ip[i] & MaskByte(MaskBits(n.prefix, i))
      {
        assert Masked(n.ip, n.prefix)[i] == Masked(ip, n.prefix)[i];
      }
    }
  }

  /** Contains is membership in the range. */
  lemma ContainsIsInRange(n: Net, ip: seq<Byte>)
    requires IsIPv4(n) && |ip| == 4
    ensures Contains(n, ip) <==> InRange(Value(ip), n)
  {
    ContainsIsMasked(n, ip);
    hide Contains, Value, BlockSize, First;
    MaskedValue(n.ip, n.prefix);
    MaskedValue(ip, n.prefix);
    FirstIsQuotient(Value(n.ip), Value(ip), Size(n));
    if InRange(Value(ip), n) {
      ValueIsInjective(Masked(n.ip, n.prefix), Masked(ip, n.prefix));
    }
  }

  lemma LargerBlockHolds(m: Net, n: Net, v: int)
    requires IsIPv4(m) && IsIPv4(n) && n.prefix <= m.prefix
    requires InRange(v, m) && InRange(v, n)
    ensures InRange(Value(m.ip), n)
  {
    var x := Value(m.ip);
    FirstIsQuotient(x, v, Size(m));
    FirstIsQuotient(Value(n.ip), v, Size(n));
    Pow2Adds(32 - m.prefix, m.prefix - n.prefix);
    BlocksNest(x, v, Size(m), Pow2(m.prefix - n.prefix));
    FirstIsQuotient(Value(n.ip), x, Size(n));
  }

  lemma OwnAddressInRange(n: Net)
    requires IsIPv4(n)
    ensures InRange(Value(n.ip), n)
  {
  }

  /** The overlap test is exact: for any two prefixes, whichever addresses of them are
      held, one contains the other's address if and only if the ranges intersect. */
  lemma OverlapTestIsExact(subnet: Net, n: Net)
    requires IsIPv4(subnet) && IsIPv4(n)
    ensures Contains(subnet, n.ip) || Contains(n, subnet.ip) <==> Intersect(subnet, n)
  {
    ContainsIsInRange(subnet, n.ip);
    ContainsIsInRange(n, subnet.ip);
    OwnAddressInRange(subnet);
    OwnAddressInRange(n);
    if Intersect(subnet, n) {
      var v :| InRange(v, subnet) && InRange(v, n);
      if n.prefix <= subnet.prefix {
        LargerBlockHolds(subnet, n, v);
      } else {
        LargerBlockHolds(n, subnet, v);
      }
    }
  }

  // ---- IPv4-mapped prefixes ----

  /** What comes before the four bytes of a mapped address. */
  const MAPPED: seq<Byte> := [0, 0, 0, 0, 0, 0, 0, 0, 0, 0, 0xff, 0xff]

  /** IP.To4: the four bytes of an IPv4 address in either form, or nothing. */
  function To4(ip: seq<Byte>): (r: seq<Byte>)
    ensures |r| == 4 || r == []
  {
    if |ip| == 4 then ip else if |ip| == 16 && ip[..12] == MAPPED then ip[12..] else []
  }

  /** A mask of all twelve leading bytes keeps the address mapped and masks its last four;
      a shorter one does not leave a mapped address. */
  lemma MaskedMapped(ip: seq<Byte>, p: nat)
    requires |ip| == 4 && p <= 128
    ensures |Masked(MAPPED + ip, p)| == 16
    ensures To4(Masked(MAPPED + ip, p)) == if p >= 96 then Masked(ip, p - 96) else []
    ensures MAPPED + ip == Masked(MAPPED + ip, p) <==> p >= 96 && ip == Masked(ip, p - 96)
  {
    var wide := MAPPED + ip;
    var m := Masked(wide, p);
    if p >= 96 {
      forall i | 0 <= i < 12
        ensures m[i] == MAPPED[i]
      {
        BytesAt(wide, p, i);
        AllBits(wide[i]);
      }
      assert m[..12] == MAPPED;
      forall i | 12 <= i < 16
        ensures m[i] == Masked(ip, p - 96)[i - 12]
      {
        BytesAt(wide, p, i);
        BytesAt(ip, p - 96, i - 12);
      }
      assert m[12..] == Masked(ip, p - 96);
      assert m == MAPPED + Masked(ip, p - 96);
      assert wide[12..] == ip;
    } else {
      BytesAt(wide, p, 11);
      NotAllBits(MaskBits(p, 11));
      assert m[11] != MAPPED[11] == wide[11];
      assert m[..12][11] == m[11];
    }
  }

  lemma AllBits(b: Byte)
    ensures b & MaskByte(8) == b
  {
  }

  lemma NotAllBits(k: nat)
    requires k < 8
    ensures 0xff & MaskByte(k) != 0xff
  {
  }

  // ---- The gateway ----

  /** broadcastOf: fills the host bits of the four bytes, byte by byte, from the front of
      the mask. For an address that is not IPv4 there is none. */
  method BroadcastOf(subnet: Net) returns (b: array<Byte>)
    requires (|subnet.ip| == 4 || |subnet.ip| == 16) && subnet.prefix <= 8 * |subnet.ip|
    ensures fresh(b) && b.Length == |To4(subnet.ip)|
    ensures |subnet.ip| == 4 ==> b[..] == Filled(subnet.ip, subnet.prefix) && Value(b[..]) == Highest(subnet)
    ensures |subnet.ip| == 16 && subnet.prefix >= 96 ==> b[..] == To4(subnet.ip)
  {
    var ip := To4(subnet.ip);
    var mask := Mask(subnet.prefix, |subnet.ip|);
    b := new Byte[|ip|];
    for i := 0 to |ip|
      invariant forall j :: 0 <= j < i ==> b[j] == ip[j] | !mask[j]
    {
      b[i] := ip[i] | !mask[i];
    }
    if |subnet.ip| == 4 {
      assert b[..] == Filled(subnet.ip, subnet.prefix);
      MaskedValue(subnet.ip, subnet.prefix);
    } else if subnet.prefix >= 96 {
      forall j | 0 <= j < |ip|
        ensures b[j] == ip[j]
      {
        NothingFilled(ip[j]);
      }
    }
  }

  lemma NothingFilled(b: Byte)
    ensures b | !MaskByte(8) == b
  {
  }

  /** What net.ParseCIDR makes of the configured text: of IPv4 in either form the four bytes. */
  datatype Cidr = Malformed | IPv6 | IPv4(ip: seq<Byte>, prefix: nat) | Mapped(ip: seq<Byte>, prefix: nat)

  datatype Gateway = Usable(ip: seq<Byte>, subnet: Net) | NotParsed | NotIPv4 | NetworkAddress | BroadcastAddress

  predicate WellFormed(c: Cidr) {
    && (c.IPv4? ==> |c.ip| == 4 && c.prefix <= 32)
    && (c.Mapped? ==> |c.ip| == 4 && c.prefix <= 128)
  }

  /** The address is neither the first nor the last of its block. */
  predicate Strictly(n: Net)
    requires IsIPv4(n)
  {
    Lowest(n) < Value(n.ip) < Highest(n)
  }

  /** What parseGateway accepts: of dotted-quad prefixes the addresses strictly inside their
      block. Of mapped ones only the network address is refused, and below /96 not even that. */
  predicate Accepted(c: Cidr)
    requires WellFormed(c)
  {
    match c
    case IPv4(ip, p) => Strictly(Net(ip, p))
    case Mapped(ip, p) => p < 96 || Value(ip) != Lowest(Net(ip, p - 96))
    case _ => false
  }

  method ParseGateway(c: Cidr) returns (g: Gateway)
    requires WellFormed(c)
    ensures g.Usable? <==> Accepted(c)
    ensures g.Usable? ==> g.ip == c.ip && g.subnet.prefix == c.prefix
    ensures g.Usable? ==> g.subnet.ip == if c.IPv4? then Masked(c.ip, c.prefix) else Masked(MAPPED + c.ip, c.prefix)
    ensures (g.NotParsed? <==> c.Malformed?) && (g.NotIPv4? <==> c.IPv6?)
    ensures g.NetworkAddress? && c.IPv4? ==> Value(c.ip) == Lowest(Net(c.ip, c.prefix))
    ensures g.BroadcastAddress? ==> c.IPv4? && Value(c.ip) == Highest(Net(c.ip, c.prefix))
  {
    match c {
      case Malformed => g := NotParsed;
      case IPv6 => g := NotIPv4;
      case IPv4(ip, p) => g := ParseDotted(ip, p);
      case Mapped(ip, p) => g := ParseMapped(ip, p);
    }
  }

  method ParseDotted(ip: seq<Byte>, p: nat) returns (g: Gateway)
    requires |ip| == 4 && p <= 32
    ensures g.Usable? <==> Strictly(Net(ip, p))
    ensures g.Usable? ==> g == Usable(ip, Net(Masked(ip, p), p))
    ensures g.NetworkAddress? ==> Value(ip) == Lowest(Net(ip, p))
    ensures g.BroadcastAddress? ==> Value(ip) == Highest(Net(ip, p))
    ensures !g.NotParsed? && !g.NotIPv4?
  {
    var subnet := Net(Masked(ip, p), p);
    MaskedValue(ip, p);
    MaskIsFirst(ip, p);
    OwnAddressInRange(Net(ip, p));
    if ip == subnet.ip {
      return NetworkAddress;
    }
    if Value(ip) == Value(subnet.ip) {
      ValueIsInjective(ip, subnet.ip);
    }
    var b := BroadcastOf(subnet);
    if ip == b[..] {
      return BroadcastAddress;
    }
    if Value(ip) == Value(b[..]) {
      ValueIsInjective(ip, b[..]);
    }
    g := Usable(ip, subnet);
  }

  method ParseMapped(ip: seq<Byte>, p: nat) returns (g: Gateway)
    requires |ip| == 4 && p <= 128
    ensures g.Usable? <==> p < 96 || Value(ip) != Lowest(Net(ip, p - 96))
    ensures g.Usable? ==> g == Usable(ip, Net(Masked(MAPPED + ip, p), p))
    ensures g.Usable? || g.NetworkAddress?
  {
    var wide := MAPPED + ip;
    var subnet := Net(Masked(wide, p), p);
    MaskedMapped(ip, p);
    if p >= 96 {
      MaskedValue(ip, p - 96);
      if Value(ip) == Value(Masked(ip, p - 96)) {
        ValueIsInjective(ip, Masked(ip, p - 96));
      }
    }
    if wide == subnet.ip {
      return NetworkAddress;
    }
    var b := BroadcastOf(subnet);
    if ip == b[..] {
      return BroadcastAddress;
    }
    g := Usable(ip, subnet);
  }

  /** The broadcast address of a block passes in its mapped form, though not in the other. */
  lemma MappedBroadcastPasses()
    ensures var ip: seq<Byte> := [10, 0, 0, 255];
            Accepted(Mapped(ip, 120)) && !Accepted(IPv4(ip, 24))
  {
    var ip: seq<Byte> := [10, 0, 0, 255];
    assert Pow2(8) == 256;
    SplitLast(ip);
    DivUnique(Value(ip), 256, Value(ip[..3]), 255);
  }

  lemma MaskIsFirst(ip: seq<Byte>, p: nat)
    requires |ip| == 4 && p <= 32
    ensures First(Value(Masked(ip, p)), BlockSize(p, 4)) == Value(Masked(ip, p)) == First(Value(ip), BlockSize(p, 4))
    ensures |Masked(ip, p)| == 4
  {
    hide Pow2, Value;
    MaskedValue(ip, p);
    FirstIsMultiple(Value(ip), BlockSize(p, 4));
  }

  lemma FirstIsMultiple(v: int, size: nat)
    requires size > 0
    ensures First(First(v, size), size) == First(v, size)
  {
    assert First(v, size) == size * (v / size) + 0;
    DivUnique(First(v, size), size, v / size, 0);
  }

  // ---- How many gateways a prefix admits ----

  function ByteOf(x: nat): Byte {
    if x == 0 then 0 else ByteOf(x - 1) + 1
  }

  lemma NextValue(b: Byte)
    requires b != 255
    ensures ByteValue(b + 1) == ByteValue(b) + 1
  {
  }

  lemma LastValue()
    ensures ByteValue(0) == 0 && ByteValue(255) == 255
  {
  }

  lemma {:induction false} ByteOfValue(x: nat)
    requires x < 256
    ensures ByteValue(ByteOf(x)) == x
  {
    hide ByteValue;
    LastValue();
    if x > 0 {
      ByteOfValue(x - 1);
      NextValue(ByteOf(x - 1));
    }
  }

  lemma {:induction false} ValueBelow(s: seq<Byte>)
    ensures Value(s) < Pow2(8 * |s|)
  {
    if s == [] {
      assert Pow2(0) == 1;
    } else {
      var n := |s| - 1;
      ValueBelow(s[..n]);
      NextByte(n);
    }
  }

  lemma NextByte(n: nat)
    ensures Pow2(8 * (n + 1)) == 256 * Pow2(8 * n)
  {
    assert Pow2(8) == 256;
    Pow2Adds(8 * n, 8);
  }

  /** The n low bytes of a number. */
  function Address(v: nat, n: nat): (s: seq<Byte>)
    ensures |s| == n
  {
    if n == 0 then [] else Address(v / 256, n - 1) + [ByteOf(v % 256)]
  }

  lemma AddressStep(v: nat, n: nat)
    ensures Address(v, n + 1) == Address(v / 256, n) + [ByteOf(v % 256)]
    ensures v < Pow2(8 * (n + 1)) ==> v / 256 < Pow2(8 * n)
  {
    NextByte(n);
    hide Pow2, ByteOf;
  }

  lemma NoBytes(v: nat)
    requires v < Pow2(0)
    ensures Value(Address(v, 0)) == v
  {
  }

  lemma LastByteOf(s: seq<Byte>, b: Byte)
    ensures Value(s + [b]) == Value(s) * 256 + ByteValue(b)
  {
    SplitLast(s + [b]);
    hide *;
    assert (s + [b])[..|s|] == s;
  }

  /** Address is the inverse of Value. */
  lemma {:induction false} AddressValue(v: nat, n: nat)
    requires v < Pow2(8 * n)
    ensures Value(Address(v, n)) == v
  {
    hide *;
    if n == 0 {
      NoBytes(v);
    } else {
      AddressStep(v, n - 1);
      AddressValue(v / 256, n - 1);
      LastByteOf(Address(v / 256, n - 1), ByteOf(v % 256));
      ByteOfValue(v % 256);
    }
  }

  /** The addresses whose values lie strictly between two numbers. */
  ghost function AddressesBetween(lo: int, hi: int): set<seq<Byte>>
    requires -1 <= lo
    decreases hi - lo
  {
    if hi <= lo + 1 then {} else AddressesBetween(lo, hi - 1) + {Address(hi - 1, 4)}
  }

  lemma {:induction false} AddressesBetweenExactly(lo: int, hi: int)
    requires -1 <= lo && hi <= Pow2(8 * 4)
    ensures forall ip :: ip in AddressesBetween(lo, hi) <==> |ip| == 4 && lo < Value(ip) < hi
    ensures |AddressesBetween(lo, hi)| == if hi > lo + 1 then hi - lo - 1 else 0
    decreases hi - lo
  {
    hide Value, Pow2, Address;
    if hi > lo + 1 {
      AddressesBetweenExactly(lo, hi - 1);
      AddressValue(hi - 1, 4);
      var last := Address(hi - 1, 4);
      forall ip: seq<Byte> | |ip| == 4 && Value(ip) == hi - 1
        ensures ip == last
      {
        ValueIsInjective(ip, last);
      }
    }
  }

  lemma Pow2Grows(k: nat)
    requires k >= 2
    ensures Pow2(k) >= 4
  {
  }

  /** The addresses of n's block that parseGateway accepts with n's prefix. */
  ghost predicate GatewaysOf(n: Net, gateways: set<seq<Byte>>)
    requires IsIPv4(n)
  {
    forall ip :: ip in gateways <==>
      |ip| == 4 && Accepted(IPv4(ip, n.prefix)) && Lowest(Net(ip, n.prefix)) == Lowest(n)
  }

  lemma SameBlock(n: Net, ip: seq<Byte>)
    requires IsIPv4(n) && |ip| == 4
    ensures Accepted(IPv4(ip, n.prefix)) && Lowest(Net(ip, n.prefix)) == Lowest(n) <==>
          Lowest(n) < Value(ip) < Highest(n)
  {
    FirstIsQuotient(Value(n.ip), Value(ip), Size(n));
  }

  lemma BetweenAreGateways(n: Net, gateways: set<seq<Byte>>)
    requires IsIPv4(n) && forall ip :: ip in gateways <==> |ip| == 4 && Lowest(n) < Value(ip) < Highest(n)
    ensures GatewaysOf(n, gateways)
  {
    forall ip: seq<Byte> | |ip| == 4
      ensures Accepted(IPv4(ip, n.prefix)) && Lowest(Net(ip, n.prefix)) == Lowest(n) <==>
            Lowest(n) < Value(ip) < Highest(n)
    {
      SameBlock(n, ip);
    }
    hide Value, Lowest, Highest, Accepted;
  }

  lemma BlockIsIn32Bits(n: Net)
    requires IsIPv4(n)
    ensures 0 <= Lowest(n) && Highest(n) < Pow2(8 * 4)
    ensures Highest(n) == Lowest(n) + Pow2(32 - n.prefix) - 1
  {
    hide Pow2;
    MaskedValue(n.ip, n.prefix);
    ValueBelow(Filled(n.ip, n.prefix));
  }

  /** A block with a prefix up to 30 has all but two of its addresses as gateways; one
      with /31 or /32 has none. */
  lemma GatewayCount(n: Net) returns (gateways: set<seq<Byte>>)
    requires IsIPv4(n)
    ensures GatewaysOf(n, gateways)
    ensures |gateways| == if n.prefix <= 30 then Pow2(32 - n.prefix) - 2 else 0
  {
    if n.prefix <= 30 {
      Pow2Grows(32 - n.prefix);
    } else {
      assert Pow2(0) == 1 && Pow2(1) == 2;
    }
    hide *;
    BlockIsIn32Bits(n);
    gateways := AddressesBetween(Lowest(n), Highest(n));
    AddressesBetweenExactly(Lowest(n), Highest(n));
    BetweenAreGateways(n, gateways);
  }

  // ---- Overlap with the host's other networks ----

  const BROKER_NETWORK := "gprunner0"

  /** An interface address: IPv4, or something the check does not look at. */
  datatype Addr = V4(net: Net) | OtherAddr

  /** `addrs` is empty-handed when the link cannot be read. */
  datatype Link = Readable(name: string, addrs: seq<Addr>) | Unreadable(name: string)

  predicate LinksOk(links: seq<Link>) {
    forall i, j :: 0 <= i < |links| && links[i].Readable? && 0 <= j < |links[i].addrs| && links[i].addrs[j].V4? ==>
      IsIPv4(links[i].addrs[j].net)
  }

  datatype Check = IsFree | Taken(link: string, net: Net) | NotListed

  ghost predicate Carries(links: seq<Link>, name: string, net: Net) {
    exists i :: 0 <= i < |links| && links[i].Readable? && links[i].name == name && V4(net) in links[i].addrs
  }

  /** The block is disjoint from every readable IPv4 range of every other link. */
  ghost predicate Free(subnet: Net, links: seq<Link>)
    requires IsIPv4(subnet)
  {
    forall name, net :: name != BROKER_NETWORK && Carries(links, name, net) ==> IsIPv4(net) && !Intersect(subnet, net)
  }

  datatype Block = Block(net: Net) | NoBlock

  /** What Contains compares of a parsed subnet: an IPv4 block, except for a mapped prefix
      below /96, whose network address is not IPv4 and shares no length with any range. */
  function BlockOf(subnet: Net): (b: Block)
    requires (|subnet.ip| == 4 && subnet.prefix <= 32) || (|subnet.ip| == 16 && subnet.prefix <= 128)
    ensures b.Block? ==> IsIPv4(b.net)
  {
    if |subnet.ip| == 4 then Block(subnet)
    else if To4(subnet.ip) == [] || subnet.prefix < 96 then NoBlock
    else Block(Net(To4(subnet.ip), subnet.prefix - 96))
  }

  ghost predicate DisjointSoFar(subnet: Net, addrs: seq<Addr>)
    requires IsIPv4(subnet)
  {
    forall a :: a in addrs && a.V4? ==> IsIPv4(a.net) && !Intersect(subnet, a.net)
  }

  /** The loop of checkSubnetFree over the addresses of one link. */
  method CheckLink(subnet: Net, addrs: seq<Addr>) returns (overlap: Addr)
    requires IsIPv4(subnet) && forall a :: a in addrs && a.V4? ==> IsIPv4(a.net)
    ensures overlap.V4? ==> overlap in addrs && IsIPv4(overlap.net) && Intersect(subnet, overlap.net)
    ensures overlap.OtherAddr? ==> DisjointSoFar(subnet, addrs)
  {
    for j := 0 to |addrs|
      invariant DisjointSoFar(subnet, addrs[..j])
    {
      if addrs[j].V4? {
        var n := addrs[j].net;
        assert addrs[j] in addrs;
        OverlapTestIsExact(subnet, n);
        if Contains(subnet, n.ip) || Contains(n, subnet.ip) {
          return addrs[j];
        }
      }
    }
    assert addrs[..|addrs|] == addrs;
    overlap := OtherAddr;
  }

  /** checkSubnetFree: free means disjoint from every readable IPv4 range of every other
      link, and a refusal names a range that does overlap. Without a block to compare
      nothing is ever found to overlap. */
  method CheckSubnetFree(subnet: Net, listing: bool, links: seq<Link>) returns (r: Check)
    requires (|subnet.ip| == 4 && subnet.prefix <= 32) || (|subnet.ip| == 16 && subnet.prefix <= 128)
    requires LinksOk(links)
    ensures r.NotListed? <==> !listing
    ensures r.IsFree? && BlockOf(subnet).Block? ==> Free(BlockOf(subnet).net, links)
    ensures r.Taken? ==> BlockOf(subnet).Block? && r.link != BROKER_NETWORK && Carries(links, r.link, r.net)
    ensures r.Taken? ==> IsIPv4(r.net) && Intersect(BlockOf(subnet).net, r.net)
  {
    if !listing {
      return NotListed;
    }
    var block := BlockOf(subnet);
    if block.NoBlock? {
      return IsFree;
    }
    for i := 0 to |links|
      invariant forall k :: 0 <= k < i && links[k].name != BROKER_NETWORK && links[k].Readable? ==>
                  DisjointSoFar(block.net, links[k].addrs)
    {
      var l := links[i];
      if l.name != BROKER_NETWORK && l.Readable? {
        forall a | a in l.addrs && a.V4?
          ensures IsIPv4(a.net)
        {
          var j :| 0 <= j < |l.addrs| && l.addrs[j] == a;
          assert IsIPv4(links[i].addrs[j].net);
        }
        var overlap := CheckLink(block.net, l.addrs);
        if overlap.V4? {
          return Taken(l.name, overlap.net);
        }
      }
    }
    r := IsFree;
    forall name, net | name != BROKER_NETWORK && Carries(links, name, net)
      ensures IsIPv4(net) && !Intersect(block.net, net)
    {
      var i :| 0 <= i < |links| && links[i].Readable? && links[i].name == name && V4(net) in links[i].addrs;
      assert V4(net).V4?;
    }
  }

  // ---- The broker bridge ----

  /** No link of that name, a link without an IPv4 address, or the address it holds. */
  datatype BridgeState = Absent | NoIPv4 | Holds(net: Net)

  datatype Held = NoLink | HeldNet(net: Net) | NotRead

  /** What kraft network create printed, or that it succeeded. */
  datatype Created = Done | AlreadyExists | NotPermitted | CreateFailed

  /** A command issued on the broker network, and what it came to. */
  datatype Answer = CreateRan(c: Cidr, created: Created) | RemoveRan(ok: bool)

  datatype Creation = Made | RecordKept | Refused(answer: Created)

  datatype Cause =
    | BadGateway
    | BridgeUnread
    | Mismatch(held: Net)
    | LinksUnread
    | SubnetInUse(link: string, net: Net)
    | NotCreated(creation: Creation)
    | NotConfirmed

  datatype Ensured = Ready(gateway: seq<Byte>, adopted: bool) | NotReady(cause: Cause)

  /** The block a configured prefix stands for in comparisons, if it stands for one. */
  function ConfiguredBlock(c: Cidr): (b: Block)
    requires WellFormed(c)
    ensures b.Block? ==> IsIPv4(b.net)
  {
    if c.IPv4? then Block(Net(c.ip, c.prefix))
    else if c.Mapped? && c.prefix >= 96 then Block(Net(c.ip, c.prefix - 96))
    else NoBlock
  }

  /** The commands of one creation: a record kraft kept of a bridge that is gone is removed,
      once, and creation tried once more; any other answer is final. */
  ghost predicate CreationRan(c: Cidr, answers: seq<Answer>, r: Creation) {
    || (answers == [CreateRan(c, Done)] && r == Made)
    || (exists a: Created :: a != Done && a != AlreadyExists && answers == [CreateRan(c, a)] && r == Refused(a))
    || (answers == [CreateRan(c, AlreadyExists), RemoveRan(false)] && r == RecordKept)
    || (answers == [CreateRan(c, AlreadyExists), RemoveRan(true), CreateRan(c, Done)] && r == Made)
    || (exists a: Created ::
          a != Done && answers == [CreateRan(c, AlreadyExists), RemoveRan(true), CreateRan(c, a)] && r == Refused(a))
  }

  class Bridge {
    var state: BridgeState

    // The commands issued on the network, and how often a read of the host failed.
    ghost var answers: seq<Answer>
    ghost var faults: nat

    constructor (state: BridgeState)
      ensures this.state == state && answers == [] && faults == 0
    {
      this.state, answers, faults := state, [], 0;
    }

    /** interfaceSubnet: nothing read is not the same as nothing there. */
    method InterfaceSubnet() returns (r: Held)
      modifies this`faults
      ensures r.NoLink? ==> state.Absent?
      ensures r.HeldNet? ==> state == Holds(r.net)
      ensures r.NotRead? <==> faults == old(faults) + 1 || state.NoIPv4?
      ensures faults == old(faults) || faults == old(faults) + 1
    {
      var read: bool := *;
      if !read {
        faults := faults + 1;
        return NotRead;
      }
      r := match state case Absent => NoLink case NoIPv4 => NotRead case Holds(n) => HeldNet(n);
    }

    /** kraft network create: may report success without having created anything. */
    method NetworkCreate(c: Cidr) returns (r: Created)
      modifies this`state, this`answers
      ensures answers == old(answers) + [CreateRan(c, r)]
    {
      r := *;
      state := *;
      answers := answers + [CreateRan(c, r)];
    }

    method NetworkRm() returns (ok: bool)
      modifies this`state, this`answers
      ensures answers == old(answers) + [RemoveRan(ok)]
    {
      ok := *;
      state := *;
      answers := answers + [RemoveRan(ok)];
    }

    /** createBrokerNetwork: a record kraft kept of a bridge that is gone is dropped, once. */
    method CreateBrokerNetwork(c: Cidr) returns (r: Creation)
      modifies this`state, this`answers
      ensures old(answers) <= answers && CreationRan(c, answers[|old(answers)|..], r)
    {
      var created := NetworkCreate(c);
      assert answers[|old(answers)|..] == [CreateRan(c, created)];
      if created.AlreadyExists? {
        var removed := NetworkRm();
        assert answers[|old(answers)|..] == [CreateRan(c, AlreadyExists), RemoveRan(removed)];
        if !removed {
          return RecordKept;
        }
        created := NetworkCreate(c);
        assert answers[|old(answers)|..] == [CreateRan(c, AlreadyExists), RemoveRan(true), CreateRan(c, created)];
      }
      r := if created.Done? then Made else Refused(created);
    }

    /** EnsureBrokerNetwork. The gateway it hands out is one that parseGateway accepts. A
        bridge that exists is adopted untouched if it holds exactly the configured address
        and prefix, which no mapped prefix matches, and refused untouched otherwise; one is
        created only where none was, as configured, and only if its block, when there is one
        to compare, is disjoint from every readable range of every other link. Of a bridge it
        has created it only knows that it holds some IPv4 address. Each cause of a refusal
        says what was the matter, and there is none besides these. */
    method EnsureBrokerNetwork(c: Cidr, listing: bool, links: seq<Link>) returns (r: Ensured)
      requires WellFormed(c) && LinksOk(links)
      modifies this
      ensures faults >= old(faults) && old(answers) <= answers
      ensures r.Ready? ==> Accepted(c) && r.gateway == c.ip
      ensures answers == old(answers) ==> state == old(state)
      ensures answers != old(answers) ==>
        && old(state).Absent? && Accepted(c) && listing
        && (ConfiguredBlock(c).Block? ==> Free(ConfiguredBlock(c).net, links))
        && exists made ::
             CreationRan(c, answers[|old(answers)|..], made) && (made.Made? || r == NotReady(NotCreated(made)))
      ensures r.Ready? && r.adopted ==>
        c.IPv4? && answers == old(answers) && state == Holds(Net(c.ip, c.prefix))
      ensures r.Ready? && !r.adopted ==> answers != old(answers) && state.Holds?
      ensures r.NotReady? ==>
        match r.cause
        case BadGateway => !Accepted(c)
        case BridgeUnread => answers == old(answers) && (faults > old(faults) || state.NoIPv4?)
        case Mismatch(held) => state == old(state) == Holds(held) && (c.IPv4? ==> held != Net(c.ip, c.prefix))
        case LinksUnread => !listing && old(state).Absent?
        case SubnetInUse(link, net) =>
          && old(state).Absent? && answers == old(answers) && link != BROKER_NETWORK && Carries(links, link, net)
          && IsIPv4(net) && ConfiguredBlock(c).Block? && Intersect(ConfiguredBlock(c).net, net)
        case NotCreated(creation) => !creation.Made? && CreationRan(c, answers[|old(answers)|..], creation)
        case NotConfirmed => answers != old(answers) && (faults > old(faults) || !state.Holds?)
    {
      hide Strictly, Masked, Free, Intersect, CreationRan;
      var gateway := ParseGateway(c);
      if !gateway.Usable? {
        return NotReady(BadGateway);
      }
      var held := InterfaceSubnet();
      if held.NotRead? {
        return NotReady(BridgeUnread);
      }
      ParsedBlock(c, gateway.subnet);
      if held.HeldNet? {
        // the masks are compared as text, of four bytes and of sixteen
        if held.net.ip != gateway.ip || |gateway.subnet.ip| != 4 || held.net.prefix != gateway.subnet.prefix {
          return NotReady(Mismatch(held.net));
        }
        return Ready(gateway.ip, true);
      }
      var free := CheckSubnetFree(gateway.subnet, listing, links);
      ConfiguredIsParsed(c, gateway.subnet, links);
      if free.NotListed? {
        return NotReady(LinksUnread);
      }
      if free.Taken? {
        return NotReady(SubnetInUse(free.link, free.net));
      }
      var created := CreateBrokerNetwork(c);
      SomethingRan(c, answers[|old(answers)|..], created);
      if !created.Made? {
        return NotReady(NotCreated(created));
      }
      held := InterfaceSubnet();
      r := if held.HeldNet? then Ready(gateway.ip, false) else NotReady(NotConfirmed);
    }
  }

  lemma SomethingRan(c: Cidr, answers: seq<Answer>, r: Creation)
    requires CreationRan(c, answers, r)
    ensures answers != []
  {
  }

  /** The block of a parsed prefix is that of its address. */
  lemma ParsedBlock(c: Cidr, subnet: Net)
    requires WellFormed(c) && (c.IPv4? || c.Mapped?) && subnet.prefix == c.prefix
    requires subnet.ip == if c.IPv4? then Masked(c.ip, c.prefix) else Masked(MAPPED + c.ip, c.prefix)
    ensures |subnet.ip| == if c.IPv4? then 4 else 16
    ensures BlockOf(subnet).Block? <==> c.IPv4? || c.prefix >= 96
    ensures BlockOf(subnet).Block? ==>
      var n := Net(c.ip, if c.IPv4? then c.prefix else c.prefix - 96);
      BlockOf(subnet).net.prefix == n.prefix && Lowest(BlockOf(subnet).net) == Lowest(n)
  {
    if c.IPv4? {
      MaskIsFirst(c.ip, c.prefix);
    } else {
      MaskedMapped(c.ip, c.prefix);
      if c.prefix >= 96 {
        MaskIsFirst(c.ip, c.prefix - 96);
      }
    }
  }

  /** The comparisons depend on the block only, not on which address stands for it. */
  lemma ConfiguredIsParsed(c: Cidr, subnet: Net, links: seq<Link>)
    requires WellFormed(c) && (c.IPv4? || c.Mapped?) && subnet.prefix == c.prefix
    requires subnet.ip == if c.IPv4? then Masked(c.ip, c.prefix) else Masked(MAPPED + c.ip, c.prefix)
    requires |subnet.ip| == if c.IPv4? then 4 else 16
    ensures ConfiguredBlock(c).Block? <==> BlockOf(subnet).Block?
    ensures ConfiguredBlock(c).Block? ==>
      var m, n := ConfiguredBlock(c).net, BlockOf(subnet).net;
      && (Free(m, links) <==> Free(n, links))
      && forall net :: IsIPv4(net) ==> (Intersect(m, net) <==> Intersect(n, net))
  {
    ParsedBlock(c, subnet);
    hide Masked, BlockOf;
  }
}
