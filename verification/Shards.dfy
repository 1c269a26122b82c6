/** Shard prefixes. Machine words are lists of bits, most significant first: a shard is some leading bits of
  * an address, then a one, then zeros. */
module Shards {
  import opened Base

  type Bits64 = b: seq<bool> | |b| == 64 witness seq(64, i => false)
  type Bits8 = b: seq<bool> | |b| == 8 witness seq(8, i => false)

  function Zeros(n: nat): (z: seq<bool>)
    ensures |z| == n
  {
    seq(n, i => false)
  }

  // ---- Word operations ----

  /** A byte in the top eight bits of a word. */
  function TopByte(b: Bits8): Bits64 { b + Zeros(56) }

  function Xor(x: Bits64, y: Bits64): Bits64 { seq(64, i requires 0 <= i < 64 => x[i] != y[i]) }

  function LeadingZeros(x: seq<bool>): (n: nat)
    ensures n <= |x| && (n < |x| ==> x[n])
    ensures forall i :: 0 <= i < n ==> !x[i]
  {
    if x == [] || x[0] then 0 else 1 + LeadingZeros(x[1..])
  }

  function TrailingZeros(x: seq<bool>): (n: nat)
    ensures n <= |x| && (n < |x| ==> x[|x| - 1 - n])
    ensures forall i :: |x| - n <= i < |x| ==> !x[i]
  {
    if x == [] || x[|x| - 1] then 0 else 1 + TrailingZeros(x[..|x| - 1])
  }

  // ---- The shard test ----

  datatype ShardError = InvalidPrefix | TooManyShards | NoSuitableShard

  function PrefixLength(p: Bits64): int { 64 - 1 - TrailingZeros(p) }

  function IsInShard(p: Bits64, shard: Bits8): Result<bool, ShardError> {
    if p == Zeros(64) then Err(InvalidPrefix)
    else if PrefixLength(p) > 8 then Err(TooManyShards)
    else Ok(LeadingZeros(Xor(TopByte(shard), p)) >= PrefixLength(p))
  }

  /** The shard of all addresses that start with the given bits. */
  function ShardOf(prefix: seq<bool>): Bits64
    requires |prefix| <= 63
  {
    prefix + [true] + Zeros(63 - |prefix|)
  }

  lemma {:induction false} TrailingZerosOf(x: seq<bool>, n: nat)
    ensures TrailingZeros(x + [true] + Zeros(n)) == n
  {
    var w := x + [true] + Zeros(n);
    if n > 0 {
      assert w[..|w| - 1] == x + [true] + Zeros(n - 1);
      TrailingZerosOf(x, n - 1);
    }
  }

  lemma ShardOfLength(prefix: seq<bool>)
    requires |prefix| <= 63
    ensures PrefixLength(ShardOf(prefix)) == |prefix| && ShardOf(prefix) != Zeros(64)
  {
    TrailingZerosOf(prefix, 63 - |prefix|);
    assert ShardOf(prefix)[|prefix|];
  }

  /** Every word but zero is the shard of its significant bits. */
  lemma WordIsShard(p: Bits64)
    requires p != Zeros(64)
    ensures 0 <= PrefixLength(p) <= 63 && p == ShardOf(p[..PrefixLength(p)])
  {
    AllZeros(p);
  }

  lemma {:induction false} AllZeros(p: Bits64)
    ensures TrailingZeros(p) == 64 ==> p == Zeros(64)
  {}

  /** The shard test is the bit-by-bit comparison of the significant bits; it fails on zero and on more than eight
    * bits. */
  lemma IsInShardMeaning(p: Bits64, shard: Bits8)
    ensures IsInShard(p, shard).Ok? <==> p != Zeros(64) && PrefixLength(p) <= 8
    ensures IsInShard(p, shard).Ok? ==>
      && 0 <= PrefixLength(p) <= 8
      && (IsInShard(p, shard).value <==> forall i :: 0 <= i < PrefixLength(p) ==> p[i] == shard[i])
  {
    if p != Zeros(64) && PrefixLength(p) <= 8 {
      WordIsShard(p);
      var n := PrefixLength(p);
      var res := Xor(TopByte(shard), p);
      forall i | 0 <= i < n ensures res[i] == (p[i] != shard[i]) {}
    }
  }

  lemma InShardOf(prefix: seq<bool>, shard: Bits8)
    requires |prefix| <= 8
    ensures IsInShard(ShardOf(prefix), shard) == Ok(prefix <= shard)
  {
    ShardOfLength(prefix);
    IsInShardMeaning(ShardOf(prefix), shard);
    var w := ShardOf(prefix);
    assert w[..|prefix|] == prefix;
    assert (forall i :: 0 <= i < |prefix| ==> w[i] == shard[i]) <==> prefix <= shard by {
      assert forall i :: 0 <= i < |prefix| ==> w[i] == prefix[i];
    }
  }

  // ---- Splitting ----

  /** How the workchain is split: a shard is whole or has a left and a right half. */
  datatype Splitting = Whole | Halves(left: Splitting, right: Splitting)

  function Depth(t: Splitting): nat {
    match t
    case Whole => 0
    case Halves(l, r) => 1 + if Depth(l) > Depth(r) then Depth(l) else Depth(r)
  }

  /** The shards of a splitting below a prefix. */
  function Leaves(t: Splitting, prefix: seq<bool>): (s: seq<Bits64>)
    requires |prefix| + Depth(t) <= 63
    ensures |s| > 0
  {
    match t
    case Whole => [ShardOf(prefix)]
    case Halves(l, r) => Leaves(l, prefix + [false]) + Leaves(r, prefix + [true])
  }

  predicate Contains(p: Bits64, shard: Bits8) { IsInShard(p, shard) == Ok(true) }

  lemma {:induction false} LeavesAnswer(t: Splitting, prefix: seq<bool>, shard: Bits8, i: nat)
    requires |prefix| + Depth(t) <= 8 && i < |Leaves(t, prefix)|
    ensures IsInShard(Leaves(t, prefix)[i], shard).Ok?
    ensures !(prefix <= shard) ==> !Contains(Leaves(t, prefix)[i], shard)
  {
    hide IsInShard;
    match t
    case Whole => InShardOf(prefix, shard);
    case Halves(l, r) =>
      var n := |Leaves(l, prefix + [false])|;
      if i < n { LeavesAnswer(l, prefix + [false], shard, i); } else { LeavesAnswer(r, prefix + [true], shard, i - n); }
  }

  /** The one leaf that holds a byte. */
  lemma {:induction false} LeafOf(t: Splitting, prefix: seq<bool>, shard: Bits8) returns (k: nat)
    requires |prefix| + Depth(t) <= 8 && prefix <= shard
    ensures k < |Leaves(t, prefix)| && Contains(Leaves(t, prefix)[k], shard)
    ensures forall i :: 0 <= i < |Leaves(t, prefix)| && Contains(Leaves(t, prefix)[i], shard) ==> i == k
  {
    hide IsInShard, Contains;
    match t
    case Whole =>
      InShardOf(prefix, shard);
      k := 0;
      assert Contains(Leaves(t, prefix)[0], shard) by { OneLeaf(prefix, shard); }
    case Halves(l, r) =>
      var ls, rs := Leaves(l, prefix + [false]), Leaves(r, prefix + [true]);
      if shard[|prefix|] {
        k := LeafOf(r, prefix + [true], shard);
        k := |ls| + k;
        forall i | 0 <= i < |ls| ensures !Contains(ls[i], shard) { LeavesAnswer(l, prefix + [false], shard, i); }
      } else {
        k := LeafOf(l, prefix + [false], shard);
        forall i | 0 <= i < |rs| ensures !Contains(rs[i], shard) { LeavesAnswer(r, prefix + [true], shard, i); }
      }
  }

  lemma OneLeaf(prefix: seq<bool>, shard: Bits8)
    requires |prefix| <= 8 && prefix <= shard
    ensures Contains(ShardOf(prefix), shard)
  {
    InShardOf(prefix, shard);
  }

  /** Shard partition: however a workchain is split, to depth eight at most, each byte lies in exactly one shard. */
  lemma ShardPartition(t: Splitting, shard: Bits8) returns (k: nat)
    requires Depth(t) <= 8
    ensures forall p :: p in Leaves(t, []) ==> IsInShard(p, shard).Ok?
    ensures k < |Leaves(t, [])| && forall i :: 0 <= i < |Leaves(t, [])| ==>
      (Contains(Leaves(t, [])[i], shard) <==> i == k)
  {
    hide IsInShard, Contains;
    forall p | p in Leaves(t, []) ensures IsInShard(p, shard).Ok? {
      var i: nat :| i < |Leaves(t, [])| && Leaves(t, [])[i] == p;
      LeavesAnswer(t, [], shard, i);
    }
    k := LeafOf(t, [], shard);
  }

  // ---- Choosing a block ----

  /** A block id: its shard and number. */
  datatype BlockId = BlockId(shard: Bits64, seqno: nat)

  /** The first header whose shard holds the byte; a bad prefix on the way or no such header is fatal. */
  method FilterByShard(headers: seq<BlockId>, shard: Bits8) returns (r: Result<BlockId, ShardError>)
    ensures r == FirstInShard(headers, shard)
  {
    hide IsInShard;
    for i := 0 to |headers|
      invariant FirstInShard(headers, shard) == FirstInShard(headers[i..], shard)
    {
      assert headers[i..][1..] == headers[i + 1..];
      var answer := IsInShard(headers[i].shard, shard);
      if answer.Err? { return Err(answer.error); }
      if answer.value { return Ok(headers[i]); }
    }
    r := Err(NoSuitableShard);
  }

  function FirstInShard(headers: seq<BlockId>, shard: Bits8): Result<BlockId, ShardError> {
    if headers == [] then Err(NoSuitableShard)
    else
      match IsInShard(headers[0].shard, shard)
      case Err(e) => Err(e)
      case Ok(yes) => if yes then Ok(headers[0]) else FirstInShard(headers[1..], shard)
  }

  lemma {:induction false} FirstIsTheOne(headers: seq<BlockId>, shard: Bits8, k: nat)
    requires k < |headers| && Contains(headers[k].shard, shard)
    requires forall i :: 0 <= i < |headers| ==> IsInShard(headers[i].shard, shard).Ok?
    requires forall i :: 0 <= i < |headers| && Contains(headers[i].shard, shard) ==> i == k
    ensures FirstInShard(headers, shard) == Ok(headers[k])
  {
    hide IsInShard;
    if k > 0 {
      assert !Contains(headers[0].shard, shard);
      FirstIsTheOne(headers[1..], shard, k - 1);
    }
  }

  /** The headers are one per leaf of a splitting, in any order. */
  ghost predicate HeadersOf(headers: seq<BlockId>, t: Splitting, order: seq<nat>)
    requires Depth(t) <= 8
  {
    && |headers| == |order| == |Leaves(t, [])|
    && (forall i :: 0 <= i < |order| ==> order[i] < |Leaves(t, [])| && headers[i].shard == Leaves(t, [])[order[i]])
    && (forall i, j :: 0 <= i < j < |order| ==> order[i] != order[j])
    && forall k: nat :: k < |Leaves(t, [])| ==> k in order
  }

  /** An address belongs to a shard when it starts with the shard's significant bits. */
  predicate AddressInShard(a: Address, p: Bits64) {
    0 <= PrefixLength(p) <= 63 && p[..PrefixLength(p)] <= a.bits
  }

  predicate InShard(a: Address, shard: Bits8) { a.bits[..8] == shard }

  /** Whatever the order, the filter answers, and with the block whose shard holds every address the wallet generator
    * accepts. */
  lemma {:induction false} FilterSucceeds(headers: seq<BlockId>, t: Splitting, order: seq<nat>, shard: Bits8)
    requires Depth(t) <= 8 && HeadersOf(headers, t, order)
    ensures var r := FirstInShard(headers, shard);
      && r.Ok? && r.value in headers && Contains(r.value.shard, shard)
      && (forall h :: h in headers && Contains(h.shard, shard) ==> h == r.value)
      && forall a: Address :: a.bits[..8] == shard ==> AddressInShard(a, r.value.shard)
  {
    hide IsInShard, Contains, Leaves, AddressInShard;
    var k := ShardPartition(t, shard);
    assert k in order;
    var j: nat :| j < |order| && order[j] == k;
    forall i | 0 <= i < |headers| ensures IsInShard(headers[i].shard, shard).Ok? {
      assert headers[i].shard == Leaves(t, [])[order[i]];
    }
    forall i | 0 <= i < |headers| && Contains(headers[i].shard, shard) ensures i == j {
      assert headers[i].shard == Leaves(t, [])[order[i]];
    }
    assert headers[j].shard == Leaves(t, [])[order[j]];
    FirstIsTheOne(headers, shard, j);
    forall a: Address | InShard(a, shard) ensures AddressInShard(a, headers[j].shard) {
      SameShard(a, headers[j].shard, shard);
    }
  }

  lemma SameShard(a: Address, p: Bits64, shard: Bits8)
    requires InShard(a, shard) && Contains(p, shard)
    ensures AddressInShard(a, p)
  {
    IsInShardMeaning(p, shard);
    var n := PrefixLength(p);
    forall i | 0 <= i < n ensures p[i] == a.bits[i] { assert a.bits[..8][i] == shard[i]; }
    assert p[..n] == a.bits[..n];
  }

  // ---- Generating wallets ----

  const MAX_SUBWALLET: nat := 0xFFFF_FFFF

  /** The least fitting subwallet id from `start` on; a failing derivation ends the search. */
  method GenerateSubWallet(shard: Bits8, start: nat, derive: nat -> Option<Address>) returns (r: Option<nat>)
    ensures r.Some? ==>
      && start <= r.value < MAX_SUBWALLET && derive(r.value).Some? && derive(r.value).value.bits[..8] == shard
      && forall id :: start <= id < r.value ==> derive(id).Some? && derive(id).value.bits[..8] != shard
    ensures r.None? ==>
      || (exists id :: start <= id < MAX_SUBWALLET && derive(id).None?)
      || forall id :: start <= id < MAX_SUBWALLET ==> derive(id).Some? && derive(id).value.bits[..8] != shard
  {
    var id := start;
    while id < MAX_SUBWALLET
      invariant start <= id
      invariant forall k :: start <= k < id ==> derive(k).Some? && !InShard(derive(k).value, shard)
    {
      var a := derive(id);
      if a.None? { return None; }
      if InShard(a.value, shard) { return Some(id); }
      id := id + 1;
    }
    r := None;
  }
}
