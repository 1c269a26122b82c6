/** Cells as bits plus references, with the public formats for integers, coins, addresses and
  * snake strings. A loader returns the value and the rest of the slice, or nothing when the slice is too short. */
module Cells {
  import opened Base

  datatype Cell = Cell(bits: seq<bool>, refs: seq<Cell>)

  /** What fits into one cell. */
  predicate Fits(c: Cell) {
    |c.bits| <= 1023 && |c.refs| <= 4 && forall i :: 0 <= i < |c.refs| ==> Fits(c.refs[i])
  }

  datatype Loaded<+T> = Loaded(value: T, rest: Cell)

  // ---- Unsigned integers, most significant bit first ----

  function Pow2(w: nat): (p: nat)
    ensures p > 0
  {
    if w == 0 then 1 else 2 * Pow2(w - 1)
  }

  function UintBits(n: nat, w: nat): (b: seq<bool>)
    ensures |b| == w
  {
    if w == 0 then [] else UintBits(n / 2, w - 1) + [n % 2 == 1]
  }

  function BitsUint(b: seq<bool>): nat {
    if b == [] then 0 else 2 * BitsUint(b[..|b| - 1]) + if b[|b| - 1] then 1 else 0
  }

  lemma {:induction false} UintRoundTrip(n: nat, w: nat)
    requires n < Pow2(w)
    ensures BitsUint(UintBits(n, w)) == n
  {
    if w > 0 {
      UintRoundTrip(n / 2, w - 1);
      assert UintBits(n, w)[..w - 1] == UintBits(n / 2, w - 1);
    }
  }

  lemma {:induction false} BitsRoundTrip(b: seq<bool>)
    ensures BitsUint(b) < Pow2(|b|) && UintBits(BitsUint(b), |b|) == b
  {
    if b != [] {
      BitsRoundTrip(b[..|b| - 1]);
      assert b == b[..|b| - 1] + [b[|b| - 1]];
    }
  }

  lemma Pow2Values()
    ensures Pow2(4) == 0x10 && Pow2(8) == 0x100 && Pow2(32) == 0x1_0000_0000 && Pow2(64) == 0x1_0000_0000_0000_0000
  {
    assert Pow2(4) == 0x10 by { assert Pow2(2) == 4; }
    Squared(4, 0x10);
    Squared(8, 0x100);
    Squared(16, 0x1_0000);
    Squared(32, 0x1_0000_0000);
  }

  lemma {:induction false} Squared(w: nat, p: nat)
    requires Pow2(w) == p
    ensures Pow2(2 * w) == p * p
  {
    hide Pow2;
    Pow2Add(w, w);
  }

  lemma {:induction false} Pow2Add(a: nat, b: nat)
    ensures Pow2(a + b) == Pow2(a) * Pow2(b)
  {
    if a > 0 { Pow2Add(a - 1, b); assert Pow2(a + b) == 2 * Pow2(a - 1 + b); }
  }

  // ---- Loaders ----

  function LoadBits(c: Cell, n: nat): Option<Loaded<seq<bool>>> {
    if |c.bits| < n then None else Some(Loaded(c.bits[..n], Cell(c.bits[n..], c.refs)))
  }

  function LoadUint(c: Cell, w: nat): Option<Loaded<nat>> {
    var l :- LoadBits(c, w);
    Some(Loaded(BitsUint(l.value), l.rest))
  }

  function LoadRef(c: Cell): (r: Option<Loaded<Cell>>)
    ensures r.Some? ==> r.value.value in c.refs
  {
    if c.refs == [] then None else Some(Loaded(c.refs[0], Cell(c.bits, c.refs[1..])))
  }

  /** VarUInteger 16: a 4-bit byte count, then that many bytes. */
  function CoinBytes(n: nat): (k: nat)
    ensures n < Pow2(8 * k)
    ensures forall j: nat :: n < Pow2(8 * j) ==> k <= j
  {
    hide Pow2;
    if n == 0 then 0
    else
      var k := CoinBytes(n / 256);
      OneMoreByte(n, k);
      k + 1
  }

  lemma {:induction false} OneMoreByte(n: nat, k: nat)
    requires n > 0 && n / 256 < Pow2(8 * k) && forall j: nat :: n / 256 < Pow2(8 * j) ==> k <= j
    ensures n < Pow2(8 * (k + 1)) && forall j: nat :: n < Pow2(8 * j) ==> k + 1 <= j
  {
    ByteStep(k);
    forall j: nat | n < Pow2(8 * j) ensures k + 1 <= j {
      if j > 0 { ByteStep(j - 1); assert n / 256 < Pow2(8 * (j - 1)); }
    }
  }

  lemma {:induction false} ByteStep(k: nat)
    ensures Pow2(8 * (k + 1)) == 256 * Pow2(8 * k)
  {
    hide Pow2;
    Pow2Values();
    Pow2Add(8, 8 * k);
    assert 8 * (k + 1) == 8 + 8 * k;
  }

  function CoinsBits(n: nat): seq<bool> {
    UintBits(CoinBytes(n), 4) + UintBits(n, 8 * CoinBytes(n))
  }

  function LoadCoins(c: Cell): Option<Loaded<nat>> {
    var l :- LoadUint(c, 4);
    LoadUint(l.rest, 8 * l.value)
  }

  /** addr_std with no anycast, or addr_none. */
  function AddrBits(a: Option<Address>): seq<bool> {
    match a
    case None => [false, false]
    case Some(addr) => [true, false, false] + UintBits(0, 8) + addr.bits
  }

  /** A standard address as it stands in a cell; the masterchain is workchain 255, which is -1 in eight bits. */
  datatype Std = Std(workchain: nat, address: Address)

  /** The absent address, or a standard one; other forms count as a decoding error. */
  function LoadStd(c: Cell): Option<Loaded<Option<Std>>> {
    var tag :- LoadBits(c, 2);
    if tag.value == [false, false] then Some(Loaded(None, tag.rest))
    else if tag.value != [true, false] then None
    else
      var std :- LoadStandard(tag.rest);
      Some(Loaded(Some(std.value), std.rest))
  }

  /** No anycast. */
  function LoadStandard(c: Cell): Option<Loaded<Std>> {
    var anycast :- LoadBits(c, 1);
    if anycast.value[0] then None
    else
      var workchain :- LoadUint(anycast.rest, 8);
      var body :- LoadBits(workchain.rest, 256);
      Some(Loaded(Std(workchain.value, Addr(body.value)), body.rest))
  }

  function AnyWorkchain(a: Option<Std>): Option<Address> {
    match a case None => None case Some(std) => Some(std.address)
  }

  function InBasechain(a: Option<Address>): Option<Std> {
    match a case None => None case Some(addr) => Some(Std(0, addr))
  }

  /** The service reads the workchain and drops it. */
  function LoadAddr(c: Cell): Option<Loaded<Option<Address>>> {
    var l :- LoadStd(c);
    Some(Loaded(AnyWorkchain(l.value), l.rest))
  }

  // ---- Each loader undoes its writer, whatever follows ----

  lemma LoadBitsOf(b: seq<bool>, rest: seq<bool>, refs: seq<Cell>)
    ensures LoadBits(Cell(b + rest, refs), |b|) == Some(Loaded(b, Cell(rest, refs)))
  {
    assert (b + rest)[..|b|] == b && (b + rest)[|b|..] == rest;
  }

  lemma {:induction false} LoadUintOf(n: nat, w: nat, rest: seq<bool>, refs: seq<Cell>)
    requires n < Pow2(w)
    ensures LoadUint(Cell(UintBits(n, w) + rest, refs), w) == Some(Loaded(n, Cell(rest, refs)))
  {
    LoadBitsOf(UintBits(n, w), rest, refs);
    UintRoundTrip(n, w);
  }

  /** Any amount below 2^120 has a coins form, of at most 124 bits. */
  lemma LoadCoinsOf(n: nat, rest: seq<bool>, refs: seq<Cell>)
    requires n < Pow2(120)
    ensures |CoinsBits(n)| <= 124
    ensures LoadCoins(Cell(CoinsBits(n) + rest, refs)) == Some(Loaded(n, Cell(rest, refs)))
  {
    var k := CoinBytes(n);
    assert 8 * 15 == 120 && k <= 15;
    assert CoinsBits(n) + rest == UintBits(k, 4) + (UintBits(n, 8 * k) + rest);
    assert Pow2(4) == 16;
    LoadUintOf(k, 4, UintBits(n, 8 * k) + rest, refs);
    LoadUintOf(n, 8 * k, rest, refs);
  }

  lemma {:induction false} ZeroBits(w: nat)
    ensures UintBits(0, w) == seq(w, i => false)
  {
    if w > 0 { ZeroBits(w - 1); }
  }

  /** A printed address: addr_std without anycast, the workchain zero, then the address itself. */
  lemma AddrLayout(a: Address)
    ensures AddrBits(Some(a)) == [true, false] + [false] + seq(8, i => false) + a.bits
  {
    ZeroBits(8);
  }

  /** An address of any workchain in the same form. */
  function StdBits(a: Option<Std>): (b: seq<bool>)
    ensures |b| <= 267
  {
    match a
    case None => [false, false]
    case Some(std) => [true, false, false] + UintBits(std.workchain, 8) + std.address.bits
  }

  lemma LoadStdOf(a: Option<Std>, rest: seq<bool>, refs: seq<Cell>)
    requires a.Some? ==> a.value.workchain < 256
    ensures LoadStd(Cell(StdBits(a) + rest, refs)) == Some(Loaded(a, Cell(rest, refs)))
  {
    hide UintBits, LoadStandard, LoadBits;
    match a
    case None => LoadBitsOf([false, false], rest, refs);
    case Some(std) =>
      var tail := [false] + (UintBits(std.workchain, 8) + (std.address.bits + rest));
      assert StdBits(a) + rest == [true, false] + tail;
      LoadBitsOf([true, false], tail, refs);
      LoadStandardOf(std, rest, refs);
  }

  /** A printed address is one of workchain 0 ... */
  lemma PrintedStd(a: Option<Address>)
    ensures AddrBits(a) == StdBits(InBasechain(a))
  {}

  /** ... and reads as itself. */
  lemma LoadAddrOf(a: Option<Address>, rest: seq<bool>, refs: seq<Cell>)
    ensures |AddrBits(a)| <= 267
    ensures LoadAddr(Cell(AddrBits(a) + rest, refs)) == Some(Loaded(a, Cell(rest, refs)))
  {
    hide LoadStd;
    PrintedStd(a);
    LoadStdOf(InBasechain(a), rest, refs);
  }

  /** A standard address of any workchain. */
  lemma LoadStandardOf(a: Std, rest: seq<bool>, refs: seq<Cell>)
    requires a.workchain < 256
    ensures LoadStandard(Cell([false] + (UintBits(a.workchain, 8) + (a.address.bits + rest)), refs))
         == Some(Loaded(a, Cell(rest, refs)))
  {
    hide LoadBits, UintBits, LoadUint;
    Pow2Values();
    LoadBitsOf([false], UintBits(a.workchain, 8) + (a.address.bits + rest), refs);
    LoadUintOf(a.workchain, 8, a.address.bits + rest, refs);
    LoadBitsOf(a.address.bits, rest, refs);
  }

  /** What is read as an address is the print of it: other tags, anycast and cells that are too short are not read. */
  lemma LoadStdExact(c: Cell, a: Option<Std>, rest: Cell)
    ensures LoadStd(c) == Some(Loaded(a, rest)) <==>
      (a.Some? ==> a.value.workchain < 256) && c == Cell(StdBits(a) + rest.bits, rest.refs)
  {
    hide StdBits, LoadStd;
    if (a.Some? ==> a.value.workchain < 256) && c == Cell(StdBits(a) + rest.bits, rest.refs) {
      LoadStdOf(a, rest.bits, rest.refs);
    }
    if LoadStd(c) == Some(Loaded(a, rest)) { ReadIsPrinted(c, a, rest); }
  }

  lemma ReadIsPrinted(c: Cell, a: Option<Std>, rest: Cell)
    requires LoadStd(c) == Some(Loaded(a, rest))
    ensures (a.Some? ==> a.value.workchain < 256) && c == Cell(StdBits(a) + rest.bits, rest.refs)
  {
    hide UintBits, BitsUint, LoadStandard;
    var tail := Cell(c.bits[2..], c.refs);
    assert c.bits == c.bits[..2] + tail.bits;
    match a
    case None =>
    case Some(std) =>
      StandardIsPrinted(tail, std, rest);
      StdIsTagged(std, rest.bits);
  }

  lemma StdIsTagged(a: Std, rest: seq<bool>)
    ensures StdBits(Some(a)) + rest == [true, false] + ([false] + UintBits(a.workchain, 8) + a.address.bits + rest)
  {
    hide UintBits;
  }

  lemma StandardIsPrinted(c: Cell, a: Std, rest: Cell)
    requires LoadStandard(c) == Some(Loaded(a, rest))
    ensures a.workchain < 256 && c == Cell([false] + UintBits(a.workchain, 8) + a.address.bits + rest.bits, rest.refs)
  {
    hide UintBits, BitsUint, Pow2;
    Pow2Values();
    BitsRoundTrip(c.bits[1..9]);
    assert c.bits[1..][..8] == c.bits[1..9] && c.bits[1..][8..] == c.bits[9..];
    assert c.bits == [c.bits[0]] + c.bits[1..9] + c.bits[9..265] + c.bits[265..];
  }

  // ---- Snake strings ----

  function BytesBits(t: Text): (b: seq<bool>)
    ensures |b| == 8 * |t|
  {
    if t == [] then [] else UintBits(t[0], 8) + BytesBits(t[1..])
  }

  function BitsBytes(b: seq<bool>): (t: Text)
    requires |b| % 8 == 0
  {
    if b == [] then []
    else
      BitsRoundTrip(b[..8]); Pow2Values();
      [BitsUint(b[..8])] + BitsBytes(b[8..])
  }

  lemma {:induction false} BytesRoundTrip(t: Text)
    ensures BitsBytes(BytesBits(t)) == t
  {
    if t != [] {
      Pow2Values();
      UintRoundTrip(t[0], 8);
      assert BytesBits(t)[..8] == UintBits(t[0], 8) && BytesBits(t)[8..] == BytesBits(t[1..]);
      BytesRoundTrip(t[1..]);
    }
  }

  /** As many whole bytes as fit after the bits already stored, the remainder in a chain of references. */
  function StoreSnake(prefix: seq<bool>, t: Text): Cell
    requires |prefix| <= 1015
    decreases |t|
  {
    var room := (1023 - |prefix|) / 8;
    if |t| <= room then Cell(prefix + BytesBits(t), [])
    else Cell(prefix + BytesBits(t[..room]), [StoreSnake([], t[room..])])
  }

  function LoadSnake(c: Cell): Option<Text> {
    if |c.bits| % 8 != 0 then None
    else if c.refs == [] then Some(BitsBytes(c.bits))
    else
      var t :- LoadSnake(c.refs[0]);
      Some(BitsBytes(c.bits) + t)
  }

  /** The bits of the first cell after the prefix. */
  lemma {:induction false} SnakeHead(prefix: seq<bool>, t: Text)
    requires |prefix| <= 1015
    ensures var c := StoreSnake(prefix, t);
      var n := if |t| <= (1023 - |prefix|) / 8 then |t| else (1023 - |prefix|) / 8;
      && |prefix| <= |c.bits| <= 1023 && c.bits[..|prefix|] == prefix && c.bits[|prefix|..] == BytesBits(t[..n])
      && c.refs == (if n == |t| then [] else [StoreSnake([], t[n..])])
  {
    assert t[..|t|] == t;
  }

  lemma {:induction false} SnakeFits(prefix: seq<bool>, t: Text)
    requires |prefix| <= 1015
    ensures Fits(StoreSnake(prefix, t))
    decreases |t|
  {
    SnakeHead(prefix, t);
    var room := (1023 - |prefix|) / 8;
    if |t| > room { SnakeFits([], t[room..]); }
  }

  /** Strings of any length come back. */
  lemma {:induction false} SnakeRoundTrip(prefix: seq<bool>, t: Text)
    requires |prefix| <= 1015
    ensures var c := StoreSnake(prefix, t);
      && |c.bits| >= |prefix| && c.bits[..|prefix|] == prefix
      && LoadSnake(Cell(c.bits[|prefix|..], c.refs)) == Some(t)
    decreases |t|
  {
    hide StoreSnake, BytesBits, BitsBytes;
    SnakeHead(prefix, t);
    var room := (1023 - |prefix|) / 8;
    if |t| <= room {
      assert t[..|t|] == t;
      BytesRoundTrip(t);
    } else {
      BytesRoundTrip(t[..room]);
      SnakeRoundTrip([], t[room..]);
      var d := StoreSnake([], t[room..]);
      assert d.bits[0..] == d.bits;
      assert t == t[..room] + t[room..];
    }
  }

  /** A string in cells of whatever lengths, each but the last with a reference to the next. */
  function Chained(parts: seq<Text>): (c: Cell)
    requires parts != []
  {
    Cell(BytesBits(parts[0]), if |parts| == 1 then [] else [Chained(parts[1..])])
  }

  function Joined(parts: seq<Text>): Text { if parts == [] then [] else parts[0] + Joined(parts[1..]) }

  /** However it is cut, the string is read. */
  lemma {:induction false} ChainRead(parts: seq<Text>)
    requires parts != []
    ensures LoadSnake(Chained(parts)) == Some(Joined(parts))
  {
    BytesRoundTrip(parts[0]);
    if |parts| > 1 { ChainRead(parts[1..]); } else { assert Joined(parts) == parts[0]; }
  }
}
