/** IPv4 networks in CIDR prefix notation (section 3.1 of RFC 4632) and the subnet
    partitioner of `VpcManager._calculate_subnets`.

    An address is a natural number below 2^32; a block is an address and a prefix
    length. Parsing follows Python's `ipaddress.ip_network(s, strict=False)` for the
    dotted-quad forms: host bits beyond the prefix are cleared. */
module Cidr {
  import opened Base
  import opened Text

  /** Number of IPv4 addresses, 2^32. */
  const AddressCount: nat := 0x1_0000_0000

  function Pow2(n: nat): (r: nat)
    ensures r >= 1
  {
    if n == 0 then 1 else 2 * Pow2(n - 1)
  }

  lemma {:induction false} Pow2Add(a: nat, b: nat)
    ensures Pow2(a + b) == Pow2(a) * Pow2(b)
    decreases a
  {
    if a > 0 {
      Pow2Add(a - 1, b);
      assert Pow2(a + b) == 2 * Pow2(a - 1 + b);
    }
  }

  lemma {:induction false} Pow2Monotone(a: nat, b: nat)
    requires a <= b
    ensures Pow2(a) <= Pow2(b)
    decreases b - a
  {
    if a < b {
      Pow2Monotone(a, b - 1);
    }
  }

  lemma Pow2Of32()
    ensures Pow2(32) == AddressCount
  {
    assert Pow2(8) == 256;
    Pow2Add(8, 8);
    Pow2Add(16, 16);
  }

  datatype CidrError =
    | InvalidNetwork      // `ipaddress.ip_network` raised ValueError
    | NotEnoughAddresses  // "Cannot create {count} subnets from {vpc_cidr}"

  /** A network block: its first address and its prefix length. */
  datatype Block = Block(addr: nat, prefix: nat)

  /** Number of addresses in a block with the given prefix length. */
  function BlockSize(prefix: nat): nat
    requires prefix <= 32
  {
    Pow2(32 - prefix)
  }

  predicate IsNetwork(b: Block) {
    && b.prefix <= 32
    && b.addr < AddressCount
    && b.addr % BlockSize(b.prefix) == 0
  }

  /** One past the last address of a block. */
  function End(b: Block): nat
    requires b.prefix <= 32
  {
    b.addr + BlockSize(b.prefix)
  }

  predicate Within(inner: Block, outer: Block)
    requires inner.prefix <= 32 && outer.prefix <= 32
  {
    outer.addr <= inner.addr && End(inner) <= End(outer)
  }

  predicate Disjoint(a: Block, b: Block)
    requires a.prefix <= 32 && b.prefix <= 32
  {
    End(a) <= b.addr || End(b) <= a.addr
  }

  lemma MulLe(a: nat, b: nat, s: nat)
    requires a <= b
    ensures a * s <= b * s
  {
    assert b * s == a * s + (b - a) * s;
  }

  lemma MulAtLeast(a: int, s: int)
    requires a >= 1 && s > 0
    ensures a * s >= s
  {}

  /** Euclidean division is determined by quotient and remainder. */
  lemma DivModUnique(x: int, s: int, q: int, r: int)
    requires s > 0 && 0 <= r < s && x == q * s + r
    ensures x / s == q && x % s == r
  {
    var q', r' := x / s, x % s;
    assert x == q' * s + r';
    assert (q - q') * s == r' - r;
    if q > q' {
      MulAtLeast(q - q', s);
    } else if q < q' {
      MulAtLeast(q' - q, s);
    }
  }

  lemma MulMod(k: nat, s: nat)
    requires s > 0
    ensures (k * s) % s == 0 && (k * s) / s == k
  {
    DivModUnique(k * s, s, k, 0);
  }

  /** `x` rounded down to a multiple of `s`: the greatest multiple of `s` not above `x`. */
  function AlignDown(x: nat, s: nat): (y: nat)
    requires s > 0
    ensures y <= x < y + s
    ensures y % s == 0
  {
    MulMod(x / s, s);
    (x / s) * s
  }

  /** A multiple of `s` below `n * s` ends, one block later, at most at `n * s`. */
  lemma AlignedEnd(x: nat, s: nat, n: nat)
    requires s > 0 && x % s == 0 && x < n * s
    ensures x + s <= n * s
  {
    var k := x / s;
    assert x == k * s + x % s;
    if k >= n {
      MulLe(n, k, s);
    }
    MulLe(k + 1, n, s);
    assert (k + 1) * s == k * s + s;
  }

  /** An aligned block never runs past the end of the address space. */
  lemma NetworkEnd(b: Block)
    requires IsNetwork(b)
    ensures End(b) <= AddressCount
  {
    Pow2Add(b.prefix, 32 - b.prefix);
    Pow2Of32();
    AlignedEnd(b.addr, BlockSize(b.prefix), Pow2(b.prefix));
  }

  /** The network of `addr` at `prefix`: the host bits cleared (`packed & netmask`),
      written as rounding down to a multiple of the block size. */
  function Network(addr: nat, prefix: nat): (b: Block)
    requires addr < AddressCount && prefix <= 32
    ensures IsNetwork(b) && b.prefix == prefix
    ensures b.addr <= addr < End(b)
  {
    Block(AlignDown(addr, BlockSize(prefix)), prefix)
  }

  // ---------------------------------------------------------------- parsing

  /** One octet of a dotted quad: 1 to 3 ASCII digits, no leading zero, at most 255. */
  function ParseOctet(s: string): (r: Option<nat>)
    ensures r.Some? ==> r.value < 256
  {
    if |s| == 0 || !AllDigits(s) || |s| > 3 then None
    else if s != "0" && s[0] == '0' then None
    else if DecimalValue(s) > 255 then None
    else Some(DecimalValue(s))
  }

  /** The prefix length after '/': ASCII digits only (leading zeros allowed), at most 32. */
  function ParsePrefix(s: string): (r: Option<nat>)
    ensures r.Some? ==> r.value <= 32
  {
    if |s| == 0 || !AllDigits(s) then None
    else if DecimalValue(s) > 32 then None
    else Some(DecimalValue(s))
  }

  /** Big-endian value of four octets. */
  function FromOctets(o0: nat, o1: nat, o2: nat, o3: nat): (a: nat)
    requires o0 < 256 && o1 < 256 && o2 < 256 && o3 < 256
    ensures a < AddressCount
  {
    ((o0 * 256 + o1) * 256 + o2) * 256 + o3
  }

  /** A dotted-quad address: exactly four octets separated by '.'. */
  function ParseAddress(s: string): (r: Option<nat>)
    ensures r.Some? ==> r.value < AddressCount
  {
    var parts := Split(s, '.');
    if |parts| != 4 then None
    else
      match (ParseOctet(parts[0]), ParseOctet(parts[1]), ParseOctet(parts[2]), ParseOctet(parts[3]))
      case (Some(o0), Some(o1), Some(o2), Some(o3)) => Some(FromOctets(o0, o1, o2, o3))
      case _ => None
  }

  /** `ipaddress.ip_network(s, strict=False)` for IPv4: an address with an optional
      "/prefix" (no prefix means /32), more than one '/' rejected, host bits cleared. */
  function ParseCidr(s: string): (r: Result<Block, CidrError>)
    ensures r.Ok? ==> IsNetwork(r.value)
  {
    var parts := Split(s, '/');
    if |parts| > 2 then Err(InvalidNetwork)
    else
      match ParseAddress(parts[0])
      case None => Err(InvalidNetwork)
      case Some(addr) =>
        var prefix := if |parts| == 1 then Some(32) else ParsePrefix(parts[1]);
        match prefix
        case None => Err(InvalidNetwork)
        case Some(p) => Ok(Network(addr, p))
  }

  // -------------------------------------------------------------- rendering

  function Octet3(a: nat): nat { a % 256 }
  function Octet2(a: nat): nat { (a / 256) % 256 }
  function Octet1(a: nat): nat { (a / 256 / 256) % 256 }
  function Octet0(a: nat): nat { a / 256 / 256 / 256 }

  /** `str(IPv4Address(a))`. */
  function Dotted(a: nat): string {
    DecimalString(Octet0(a)) + "." + DecimalString(Octet1(a)) + "." +
    DecimalString(Octet2(a)) + "." + DecimalString(Octet3(a))
  }

  /** `str(IPv4Network(...))`: the dotted quad, '/', the prefix length. */
  function Render(b: Block): string {
    Dotted(b.addr) + "/" + DecimalString(b.prefix)
  }

  lemma OctetsRecombine(a: nat)
    requires a < AddressCount
    ensures Octet0(a) < 256
    ensures FromOctets(Octet0(a), Octet1(a), Octet2(a), Octet3(a)) == a
  {
    var b1 := a / 256;
    var b2 := b1 / 256;
    assert a == b1 * 256 + a % 256;
    assert b1 == b2 * 256 + b1 % 256;
    assert b2 == (b2 / 256) * 256 + b2 % 256;
  }

  lemma OctetRoundTrip(o: nat)
    requires o < 256
    ensures ParseOctet(DecimalString(o)) == Some(o)
  {
    DecimalRoundTrip(o);
  }

  lemma {:induction false} SplitDotted(a: nat)
    requires a < AddressCount
    ensures Split(Dotted(a), '.') ==
      [DecimalString(Octet0(a)), DecimalString(Octet1(a)), DecimalString(Octet2(a)), DecimalString(Octet3(a))]
  {
    var d0, d1, d2, d3 := DecimalString(Octet0(a)), DecimalString(Octet1(a)), DecimalString(Octet2(a)), DecimalString(Octet3(a));
    DecimalHasNo(Octet0(a), '.');
    DecimalHasNo(Octet1(a), '.');
    DecimalHasNo(Octet2(a), '.');
    DecimalHasNo(Octet3(a), '.');
    assert Dotted(a) == d0 + ['.'] + (d1 + ['.'] + (d2 + ['.'] + d3));
    SplitAfterPiece(d0, '.', d1 + ['.'] + (d2 + ['.'] + d3));
    SplitAfterPiece(d1, '.', d2 + ['.'] + d3);
    SplitAfterPiece(d2, '.', d3);
    SplitNoSeparator(d3, '.');
  }

  lemma NoSlashInDotted(a: nat)
    requires a < AddressCount
    ensures '/' !in Dotted(a)
  {
    DecimalHasNo(Octet0(a), '/');
    DecimalHasNo(Octet1(a), '/');
    DecimalHasNo(Octet2(a), '/');
    DecimalHasNo(Octet3(a), '/');
  }

  lemma ParseDotted(a: nat)
    requires a < AddressCount
    ensures ParseAddress(Dotted(a)) == Some(a)
  {
    SplitDotted(a);
    OctetsRecombine(a);
    OctetRoundTrip(Octet0(a));
    OctetRoundTrip(Octet1(a));
    OctetRoundTrip(Octet2(a));
    OctetRoundTrip(Octet3(a));
  }

  lemma SplitRendered(b: Block)
    requires b.addr < AddressCount
    ensures Split(Render(b), '/') == [Dotted(b.addr), DecimalString(b.prefix)]
  {
    var dotted, pre := Dotted(b.addr), DecimalString(b.prefix);
    NoSlashInDotted(b.addr);
    DecimalHasNo(b.prefix, '/');
    SplitAfterPiece(dotted, '/', pre);
    SplitNoSeparator(pre, '/');
  }

  lemma ParsePrefixRendered(p: nat)
    requires p <= 32
    ensures ParsePrefix(DecimalString(p)) == Some(p)
  {
    DecimalRoundTrip(p);
  }

  /** Clearing the host bits of an aligned address leaves it unchanged. */
  lemma NetworkOfAligned(b: Block)
    requires IsNetwork(b)
    ensures Network(b.addr, b.prefix) == b
  {}

  /** Rendering a network and parsing it back yields the same network: the round
      trip `create_vpc` performs when it hands `str(network)` to the partitioner. */
  lemma RenderParseRoundTrip(b: Block)
    requires IsNetwork(b)
    ensures ParseCidr(Render(b)) == Ok(b)
  {
    var parts := Split(Render(b), '/');
    SplitRendered(b);
    assert parts[0] == Dotted(b.addr) && parts[1] == DecimalString(b.prefix);
    ParseDotted(b.addr);
    ParsePrefixRendered(b.prefix);
    assert ParseAddress(parts[0]) == Some(b.addr);
    assert ParsePrefix(parts[1]) == Some(b.prefix);
    NetworkOfAligned(b);
  }

  /** Parsing is idempotent through rendering: the network parsed from `s`, once
      rendered, parses to itself. */
  lemma ReparseParsed(s: string)
    requires ParseCidr(s).Ok?
    ensures ParseCidr(Render(ParseCidr(s).value)) == ParseCidr(s)
  {
    RenderParseRoundTrip(ParseCidr(s).value);
  }

  // ------------------------------------------------------------ partitioning

  /** Number of /p blocks in a /base network. */
  function Capacity(base: nat, p: nat): nat
    requires base <= p
  {
    Pow2(p - base)
  }

  /** The loop of `_calculate_subnets`: from prefix `p`, lengthen the prefix by one
      until the /base network holds `count` blocks of it or the prefix reaches 32.
      The result is the least such prefix from `p` on. */
  function PrefixSearch(base: nat, p: nat, count: int): (q: nat)
    requires base <= p <= 32
    ensures p <= q <= 32
    ensures Capacity(base, q) >= count || q == 32
    ensures forall k :: p <= k < q ==> Capacity(base, k) < count
    decreases 32 - p
  {
    if Capacity(base, p) >= count || p == 32 then p
    else PrefixSearch(base, p + 1, count)
  }

  /** The prefix `_calculate_subnets` settles on for `count` subnets of a /base network. */
  function SubnetPrefix(base: nat, count: int): nat
    requires base <= 32
  {
    PrefixSearch(base, base, count)
  }

  /** The first `count` blocks of the partition of `net` at the chosen prefix, in
      ascending address order, or NotEnoughAddresses when even /32 blocks are too few.
      A count of zero or less yields no blocks (Python's `[network][:count]`). */
  function Partition(net: Block, count: int): Result<seq<Block>, CidrError>
    requires IsNetwork(net)
  {
    var p := SubnetPrefix(net.prefix, count);
    if Capacity(net.prefix, p) < count then Err(NotEnoughAddresses)
    else Ok(FirstSubnets(net, p, count))
  }

  /** `list(net.subnets(new_prefix=p))[:count]`: the first `count` blocks of the /p
      partition of `net`, none when `count` is zero or less. */
  function FirstSubnets(net: Block, p: nat, count: int): seq<Block>
    requires p <= 32
  {
    seq(if count < 0 then 0 else count, i requires 0 <= i => Subnet(net, p, i))
  }

  /** Block `i` of the partition of `net` at prefix `p`. */
  function Subnet(net: Block, p: nat, i: nat): Block
    requires p <= 32
  {
    Block(net.addr + i * BlockSize(p), p)
  }

  /** The blocks `_calculate_subnets(vpc_cidr, count)` settles on. */
  function PlanSubnets(cidr: string, count: int): Result<seq<Block>, CidrError> {
    match ParseCidr(cidr)
    case Err(e) => Err(e)
    case Ok(net) => Partition(net, count)
  }

  /** `[str(s) for s in subnets]`. */
  function RenderAll(blocks: seq<Block>): (strs: seq<string>)
    ensures |strs| == |blocks|
  {
    seq(|blocks|, k requires 0 <= k < |blocks| => Render(blocks[k]))
  }

  /** `_calculate_subnets(vpc_cidr, count)` as a function of its inputs: the CIDR
      strings of the planned blocks. */
  function SubnetStrings(cidr: string, count: int): Result<seq<string>, CidrError> {
    match PlanSubnets(cidr, count)
    case Err(e) => Err(e)
    case Ok(blocks) => Ok(RenderAll(blocks))
  }

  /** The CIDR strings of the first `count` blocks of the partition of an already
      parsed network. */
  function NetworkSubnets(net: Block, count: int): Result<seq<string>, CidrError>
    requires IsNetwork(net)
  {
    match Partition(net, count)
    case Err(e) => Err(e)
    case Ok(blocks) => Ok(RenderAll(blocks))
  }

  /** Handing `str(network)` to the partitioner, as `create_vpc` does, partitions the
      network itself. */
  lemma RenderedSubnets(net: Block, count: int)
    requires IsNetwork(net)
    ensures SubnetStrings(Render(net), count) == NetworkSubnets(net, count)
  {
    RenderParseRoundTrip(net);
  }

  /** The partition of a network exists exactly when the network has room for
      `count` blocks, and then holds `max(count, 0)` of them. */
  lemma NetworkSubnetsOutcome(net: Block, count: int)
    requires IsNetwork(net)
    ensures NetworkSubnets(net, count).Ok? <==> count <= Capacity(net.prefix, 32)
    ensures NetworkSubnets(net, count).Ok? ==> |NetworkSubnets(net, count).value| == (if count < 0 then 0 else count)
  {
    PartitionSucceedsIff(net, count);
  }

  /** The partition exists exactly when `count` does not exceed the number of /32
      blocks of the base network, 2^(32 - base). */
  lemma PartitionSucceedsIff(net: Block, count: int)
    requires IsNetwork(net)
    ensures Partition(net, count).Ok? <==> count <= Capacity(net.prefix, 32)
  {
    hide FirstSubnets;
    var p := SubnetPrefix(net.prefix, count);
    Pow2Monotone(p - net.prefix, 32 - net.prefix);
  }

  /** Block `i < c` of stride `s` from an address aligned to `S == c * s` is
      aligned to `s` and ends no later than `S` after that address. */
  lemma StrideWithin(base: nat, bigS: nat, s: nat, c: nat, i: nat)
    requires s > 0 && i < c && bigS == c * s && bigS > 0 && base % bigS == 0
    ensures (base + i * s) % s == 0
    ensures base + i * s + s <= base + bigS
  {
    var k := base / bigS;
    assert base == k * bigS + base % bigS;
    assert base + i * s == (k * c + i) * s;
    MulMod(k * c + i, s);
    MulLe(i + 1, c, s);
  }

  /** Block `i` of the /p partition of `net`, for `i` below its capacity, is an
      aligned network inside `net`. */
  lemma SubnetWithin(net: Block, p: nat, i: nat)
    requires IsNetwork(net) && net.prefix <= p <= 32 && i < Capacity(net.prefix, p)
    ensures IsNetwork(Subnet(net, p, i)) && Within(Subnet(net, p, i), net)
  {
    Pow2Add(p - net.prefix, 32 - p);
    NetworkEnd(net);
    StrideWithin(net.addr, BlockSize(net.prefix), BlockSize(p), Capacity(net.prefix, p), i);
  }

  /** Every block of a successful partition is an aligned network inside the base
      network. */
  lemma PartitionWithin(net: Block, count: int)
    requires IsNetwork(net) && Partition(net, count).Ok?
    ensures var blocks := Partition(net, count).value;
      forall i :: 0 <= i < |blocks| ==> IsNetwork(blocks[i]) && Within(blocks[i], net)
  {
    var blocks := Partition(net, count).value;
    var p := SubnetPrefix(net.prefix, count);
    forall i | 0 <= i < |blocks|
      ensures IsNetwork(blocks[i]) && Within(blocks[i], net)
    {
      assert blocks[i] == Subnet(net, p, i);
      SubnetWithin(net, p, i);
    }
  }

  /** The blocks start at the network's own address and run in ascending order
      with stride 2^(32 - p), hence pairwise disjoint. */
  lemma {:induction false} PartitionAscending(net: Block, count: int)
    requires IsNetwork(net) && Partition(net, count).Ok?
    ensures var blocks := Partition(net, count).value;
      && (count > 0 ==> |blocks| > 0 && blocks[0].addr == net.addr)
      && (forall i :: 0 <= i < |blocks| - 1 ==> blocks[i + 1].addr == blocks[i].addr + BlockSize(blocks[i].prefix))
      && (forall i, j :: 0 <= i < j < |blocks| ==> End(blocks[i]) <= blocks[j].addr)
      && (forall i, j :: 0 <= i < j < |blocks| ==> Disjoint(blocks[i], blocks[j]))
  {
    var blocks := Partition(net, count).value;
    var p := SubnetPrefix(net.prefix, count);
    var s := BlockSize(p);
    forall i, j | 0 <= i < j < |blocks|
      ensures End(blocks[i]) <= blocks[j].addr
      ensures j == i + 1 ==> blocks[j].addr == blocks[i].addr + s
    {
      assert blocks[i] == Subnet(net, p, i) && blocks[j] == Subnet(net, p, j);
      StrideOrder(i, j, s);
    }
    if count > 0 {
      assert blocks[0] == Subnet(net, p, 0);
    }
  }

  lemma StrideOrder(i: nat, j: nat, s: nat)
    requires i < j
    ensures i * s + s <= j * s
    ensures j == i + 1 ==> j * s == i * s + s
  {
    MulLe(i + 1, j, s);
  }

  /** `str(IPv4Network("10.0.0.0/20"))`. */
  lemma ExampleRender20()
    ensures Render(Block(167772160, 20)) == "10.0.0.0/20"
  {
    ExampleRender(167772160, 0, "0", 20, "20");
  }

  lemma ExampleParse()
    ensures ParseCidr("10.0.0.0/20") == Ok(Block(167772160, 20))
  {
    ExampleRender20();
    RenderParseRoundTrip(Block(167772160, 20));
  }

  lemma ExamplePartition()
    ensures Partition(Block(167772160, 20), 4) ==
      Ok([Block(167772160, 22), Block(167773184, 22), Block(167774208, 22), Block(167775232, 22)])
  {
    assert SubnetPrefix(20, 4) == 22;
    assert Capacity(20, 22) == 4;
    assert BlockSize(22) == 1024;
    var net := Block(167772160, 20);
    var r := seq(4, i requires 0 <= i => Subnet(net, 22, i));
    assert Partition(net, 4) == Ok(r);
    assert r[0] == Block(167772160, 22);
    assert r[1] == Block(167773184, 22);
    assert r[2] == Block(167774208, 22);
    assert r[3] == Block(167775232, 22);
    assert r == [r[0], r[1], r[2], r[3]];
  }

  /** `_calculate_subnets("10.0.0.0/20", 4)` gives 10.0.0.0/22, 10.0.4.0/22,
      10.0.8.0/22 and 10.0.12.0/22 (the third octets 0, 4, 8 and 12 are the
      addresses 167772160 + 1024 * i). */
  lemma PlanExample()
    ensures PlanSubnets("10.0.0.0/20", 4) ==
      Ok([Block(167772160, 22), Block(167773184, 22), Block(167774208, 22), Block(167775232, 22)])
  {
    ExampleParse();
    ExamplePartition();
  }

  /** The strings of that example: four /22 networks, each starting "10.0.". */
  lemma CalculateExample()
    ensures SubnetStrings("10.0.0.0/20", 4) ==
      Ok(["10.0.0.0/22", "10.0.4.0/22", "10.0.8.0/22", "10.0.12.0/22"])
  {
    var blocks := [Block(167772160, 22), Block(167773184, 22), Block(167774208, 22), Block(167775232, 22)];
    PlanExample();
    assert SubnetStrings("10.0.0.0/20", 4) == Ok(RenderAll(blocks));
    RenderAllFour(blocks[0], blocks[1], blocks[2], blocks[3]);
    ExampleRenders();
  }

  lemma RenderAllFour(a: Block, b: Block, c: Block, d: Block)
    ensures RenderAll([a, b, c, d]) == [Render(a), Render(b), Render(c), Render(d)]
  {}

  lemma ExampleRenders()
    ensures Render(Block(167772160, 22)) == "10.0.0.0/22"
    ensures Render(Block(167773184, 22)) == "10.0.4.0/22"
    ensures Render(Block(167774208, 22)) == "10.0.8.0/22"
    ensures Render(Block(167775232, 22)) == "10.0.12.0/22"
  {
    hide Render;
    assert DecimalString(22) == "22";
    assert DecimalString(12) == "12";
    ExampleRender(167772160, 0, "0", 22, "22");
    ExampleRender(167773184, 4, "4", 22, "22");
    ExampleRender(167774208, 8, "8", 22, "22");
    ExampleRender(167775232, 12, "12", 22, "22");
  }

  /** The rendering of the address 10.0.third.0 at prefix `p`. */
  lemma ExampleRender(a: nat, third: nat, digits: string, p: nat, prefixDigits: string)
    requires third < 256 && a == 167772160 + third * 256
    requires digits == DecimalString(third) && prefixDigits == DecimalString(p)
    ensures Render(Block(a, p)) == "10.0." + digits + ".0/" + prefixDigits
  {
    assert Octet0(a) == 10 && Octet1(a) == 0 && Octet2(a) == third && Octet3(a) == 0;
  }

  /** Whether `PlanSubnets` succeeds, and how many blocks it returns. */
  lemma PlanSubnetsOutcome(cidr: string, count: int)
    ensures PlanSubnets(cidr, count).Ok? <==>
      ParseCidr(cidr).Ok? && count <= Capacity(ParseCidr(cidr).value.prefix, 32)
    ensures PlanSubnets(cidr, count).Ok? ==>
      |PlanSubnets(cidr, count).value| == (if count < 0 then 0 else count)
  {
    if ParseCidr(cidr).Ok? {
      PartitionSucceedsIff(ParseCidr(cidr).value, count);
    }
  }

  /** What `create_vpc` relies on: every string `_calculate_subnets` returns parses
      back to its block, a network of the chosen prefix inside the VPC's network, and
      no two of them overlap. */
  lemma SubnetStringsSound(cidr: string, count: int)
    requires SubnetStrings(cidr, count).Ok?
    ensures var net := ParseCidr(cidr).value;
      var strs := SubnetStrings(cidr, count).value;
      && ParseCidr(cidr).Ok?
      && |strs| == (if count < 0 then 0 else count)
      && (forall k :: 0 <= k < |strs| ==>
            && ParseCidr(strs[k]).Ok?
            && ParseCidr(strs[k]).value.prefix == SubnetPrefix(net.prefix, count)
            && Within(ParseCidr(strs[k]).value, net))
      && (forall j, k :: 0 <= j < k < |strs| ==>
            ParseCidr(strs[j]).Ok? && ParseCidr(strs[k]).Ok? &&
            Disjoint(ParseCidr(strs[j]).value, ParseCidr(strs[k]).value))
  {
    hide ParseCidr;
    var net := ParseCidr(cidr).value;
    var blocks := Partition(net, count).value;
    var strs := SubnetStrings(cidr, count).value;
    PlanSubnetsOutcome(cidr, count);
    PartitionWithin(net, count);
    PartitionAscending(net, count);
    forall k | 0 <= k < |strs|
      ensures ParseCidr(strs[k]) == Ok(blocks[k])
    {
      RenderParseRoundTrip(blocks[k]);
    }
  }

  /** `_calculate_subnets`: parse the network, lengthen the prefix one step at a
      time until enough blocks fit, then render the first `count` blocks. */
  method CalculateSubnets(cidr: string, count: int) returns (r: Result<seq<string>, CidrError>)
    ensures r == SubnetStrings(cidr, count)
    ensures r.Ok? <==> ParseCidr(cidr).Ok? && count <= Capacity(ParseCidr(cidr).value.prefix, 32)
    ensures r.Ok? ==> |r.value| == (if count < 0 then 0 else count)
  {
    PlanSubnetsOutcome(cidr, count);
    var parsed := ParseCidr(cidr);
    if parsed.Err? {
      return Err(parsed.error);
    }
    var network := parsed.value;
    var currentPrefix := network.prefix;
    var maxSubnets := 1;
    while maxSubnets < count && currentPrefix < 32
      invariant network.prefix <= currentPrefix <= 32
      invariant maxSubnets == Capacity(network.prefix, currentPrefix)
      invariant PrefixSearch(network.prefix, currentPrefix, count) == SubnetPrefix(network.prefix, count)
      decreases 32 - currentPrefix
    {
      currentPrefix := currentPrefix + 1;
      maxSubnets := Pow2(currentPrefix - network.prefix);
    }
    if maxSubnets < count {
      return Err(NotEnoughAddresses);
    }
    var subnets := Subnets(network, currentPrefix, count);
    return Ok(RenderAll(subnets));
  }

  /** `list(network.subnets(new_prefix=p))[:count]`, block by block. */
  method Subnets(network: Block, p: nat, count: int) returns (subnets: seq<Block>)
    requires p <= 32
    ensures subnets == FirstSubnets(network, p, count)
  {
    subnets := [];
    var i := 0;
    while i < count
      invariant 0 <= i && (count >= 0 ==> i <= count)
      invariant count < 0 ==> i == 0
      invariant |subnets| == i
      invariant forall k :: 0 <= k < i ==> subnets[k] == Subnet(network, p, k)
    {
      subnets := subnets + [Subnet(network, p, i)];
      i := i + 1;
    }
  }
}
