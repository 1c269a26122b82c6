/** The shard tracker: from the tip of a master block it walks back along filtered parents to the last known
  * block, pushing every header it passes to the scanner's channel. */
module ShardWalk {
  import opened Base
  import opened Shards

  /** A block as the lite server returns it: its parents, unless they cannot be read. */
  datatype Block = Block(parents: Option<seq<BlockId>>)

  /** The chain maps every id to its block; parents have smaller numbers, across splits and merges. */
  type Chain = BlockId -> Block

  ghost predicate Descending(chain: Chain) {
    forall id: BlockId, p: BlockId :: chain(id).parents.Some? && p in chain(id).parents.value ==> p.seqno < id.seqno
  }

  /** The one parent kept for a byte. */
  function ParentOf(chain: Chain, shard: Bits8, id: BlockId): Option<BlockId> {
    match chain(id).parents
    case None => None
    case Some(ps) =>
      match FirstInShard(ps, shard)
      case Ok(p) => Some(p)
      case Err(_) => None
  }

  lemma {:induction false} FirstIsMember(headers: seq<BlockId>, shard: Bits8)
    ensures FirstInShard(headers, shard).Ok? ==> FirstInShard(headers, shard).value in headers
  {
    hide IsInShard;
    if headers != [] { FirstIsMember(headers[1..], shard); }
  }

  lemma ParentIsLower(chain: Chain, shard: Bits8, id: BlockId)
    requires Descending(chain)
    ensures ParentOf(chain, shard, id).Some? ==> ParentOf(chain, shard, id).value.seqno < id.seqno
  {
    hide FirstInShard;
    if chain(id).parents.Some? { FirstIsMember(chain(id).parents.value, shard); }
  }

  /** A block and its filtered ancestors, as far back as they can be read. */
  ghost function Ancestors(chain: Chain, shard: Bits8, id: BlockId): (s: seq<BlockId>)
    requires Descending(chain)
    ensures |s| > 0 && s[0] == id
    decreases id.seqno
  {
    hide Descending;
    ParentIsLower(chain, shard, id);
    match ParentOf(chain, shard, id)
    case None => [id]
    case Some(p) => [id] + Ancestors(chain, shard, p)
  }

  /** Numbers strictly decrease along the path, so no block occurs twice. */
  lemma {:induction false} AncestorsDescend(chain: Chain, shard: Bits8, id: BlockId, i: nat, j: nat)
    requires Descending(chain) && i < j < |Ancestors(chain, shard, id)|
    ensures Ancestors(chain, shard, id)[j].seqno < Ancestors(chain, shard, id)[i].seqno
    decreases id.seqno
  {
    hide Descending, ParentOf;
    ParentIsLower(chain, shard, id);
    var p := ParentOf(chain, shard, id).value;
    if i > 0 { AncestorsDescend(chain, shard, p, i - 1, j - 1); }
    else if j > 1 { AncestorsDescend(chain, shard, p, 0, j - 1); }
  }

  /** From any block on the path, the rest of the path is that block's own. */
  lemma {:induction false} AncestorsFrom(chain: Chain, shard: Bits8, id: BlockId, k: nat)
    requires Descending(chain) && k < |Ancestors(chain, shard, id)|
    ensures Ancestors(chain, shard, id)[k..] == Ancestors(chain, shard, Ancestors(chain, shard, id)[k])
    decreases id.seqno
  {
    hide Descending, ParentOf;
    ParentIsLower(chain, shard, id);
    if k > 0 { AncestorsFrom(chain, shard, ParentOf(chain, shard, id).value, k - 1); }
  }

  /** Position of a block on the path. */
  ghost predicate At(chain: Chain, shard: Bits8, tip: BlockId, k: nat, id: BlockId)
    requires Descending(chain)
  {
    k < |Ancestors(chain, shard, tip)| && Ancestors(chain, shard, tip)[k] == id
  }

  datatype Header = Header(id: BlockId, parent: BlockId) | ZeroHeader

  /** How a walk ends: at the last known block, at a request that failed, or with the process down. */
  datatype Outcome = Done | Failed | Crashed

  class ShardTracker {
    const shard: Bits8
    const start: BlockId
    ghost const chain: Chain
    var lastKnown: BlockId
    var channel: seq<Header>

    constructor (shard: Bits8, start: BlockId, ghost chain: Chain)
      requires Descending(chain)
      ensures this.shard == shard && this.start == start && this.chain == chain
      ensures Valid() && lastKnown == start && channel == []
    {
      this.shard, this.start, this.chain, lastKnown, channel := shard, start, chain, start, [];
      new;
      NothingToCover(chain, shard, start);
    }

    /** Every block from the last known one back to the start has been pushed. */
    ghost predicate Valid()
      reads this
    {
      && Descending(chain)
      && Covered(chain, shard, channel, lastKnown, start)
    }

    /** One walk from a tip, pushing n blocks. `up` says which requests to the lite server are answered. */
    method GetShardBlocks(chain: Chain, tip: BlockId, up: nat -> bool) returns (r: Outcome, n: nat)
      requires Valid() && chain == this.chain
      modifies this
      ensures Valid()
      ensures EmittedPath(chain, shard, tip, n, old(channel), channel, r == Crashed)
        && Unmet(chain, shard, tip, n, old(lastKnown))
      ensures r == Done ==> lastKnown == tip && At(chain, shard, tip, n, old(lastKnown))
      ensures r != Done ==> lastKnown == old(lastKnown)
      ensures (forall k :: up(k)) ==> r != Failed
      ensures (forall k :: up(k)) && Reached(chain, shard, tip, old(lastKnown)) ==> r == Done
    {
      hide Ancestors, Descending, Covered, Reached, EmittedPath, Unmet, FirstInShard;
      StartOfPath(chain, shard, tip, channel, lastKnown);
      var current := tip;
      ghost var was, path := channel, Ancestors(chain, shard, tip);
      n := 0;
      while current != lastKnown
        invariant n < |path| && path[n] == current && path == Ancestors(chain, shard, tip)
        invariant lastKnown == old(lastKnown)
        invariant EmittedPath(chain, shard, tip, n, was, channel, false)
        invariant Unmet(chain, shard, tip, n, lastKnown) && Covered(chain, shard, channel, lastKnown, start)
        decreases current.seqno
      {
        if !up(n) { return Failed, n; }
        ghost var before := channel;
        var block := chain(current);
        if block.parents.None? {
          channel := channel + [ZeroHeader];
          PushedGrows(chain, shard, before, ZeroHeader, lastKnown, start);
          EmittedZero(chain, shard, tip, n, was, before);
          NoParent(chain, shard, tip, n, lastKnown);
          return Crashed, n;
        }
        var parent := FilterByShard(block.parents.value, shard);
        if parent.Err? {
          EmittedNothing(chain, shard, tip, n, was, before);
          NoParent(chain, shard, tip, n, lastKnown);
          return Crashed, n;
        }
        channel := channel + [Header(current, parent.value)];
        PushedGrows(chain, shard, before, Header(current, parent.value), lastKnown, start);
        PathStep(chain, shard, tip, n);
        EmittedStep(chain, shard, tip, n, was, before, lastKnown);
        current := parent.value;
        n := n + 1;
      }
      WalkJoins(chain, shard, tip, n, lastKnown, start, was, channel);
      lastKnown := tip;
      r := Done;
    }

    /** The main loop over the tips of successive master blocks: a failed walk is logged and the next tip is tried. */
    method Track(chain: Chain, tips: seq<BlockId>, up: (nat, nat) -> bool) returns (alive: bool)
      requires Valid() && chain == this.chain
      modifies this
      ensures Valid() && (lastKnown == old(lastKnown) || lastKnown in tips)
      ensures alive && (forall t, k :: up(t, k)) && tips != [] ==> lastKnown == tips[|tips| - 1]
      ensures old(channel) <= channel
    {
      hide Covered, EmittedPath, Unmet, Reached, Ancestors, Descending;
      alive := true;
      for i := 0 to |tips|
        invariant Valid() && (lastKnown == old(lastKnown) || lastKnown in tips)
        invariant (forall t, k :: up(t, k)) && i > 0 ==> lastKnown == tips[i - 1]
        invariant old(channel) <= channel
      {
        ghost var was := channel;
        var r, n := GetShardBlocks(chain, tips[i], (k: nat) => up(i, k));
        EmittedExtends(chain, shard, tips[i], n, was, channel, r == Crashed);
        if r == Crashed { return false; }
      }
    }
  }

  lemma EmittedExtends(chain: Chain, shard: Bits8, tip: BlockId, n: nat, was: seq<Header>, now: seq<Header>,
                       crashed: bool)
    requires Descending(chain) && EmittedPath(chain, shard, tip, n, was, now, crashed)
    ensures was <= now
  {
    hide Ancestors, Descending;
  }

  /** Every block from `known` back to `start` is on the channel. */
  ghost predicate Covered(chain: Chain, shard: Bits8, channel: seq<Header>, known: BlockId, start: BlockId)
    requires Descending(chain)
  {
    exists k: nat :: At(chain, shard, known, k, start) && Pushed(chain, shard, channel, known, k)
  }

  lemma NothingToCover(chain: Chain, shard: Bits8, start: BlockId)
    requires Descending(chain)
    ensures Covered(chain, shard, [], start, start)
  {
    assert At(chain, shard, start, 0, start) && Pushed(chain, shard, [], start, 0);
  }

  ghost predicate Reached(chain: Chain, shard: Bits8, tip: BlockId, known: BlockId)
    requires Descending(chain)
  {
    exists k: nat :: At(chain, shard, tip, k, known)
  }

  ghost predicate Unmet(chain: Chain, shard: Bits8, tip: BlockId, n: nat, known: BlockId)
    requires Descending(chain)
  {
    forall k: nat :: k < n ==> !At(chain, shard, tip, k, known)
  }

  ghost predicate Pushed(chain: Chain, shard: Bits8, channel: seq<Header>, tip: BlockId, n: nat)
    requires Descending(chain)
  {
    n <= |Ancestors(chain, shard, tip)| && forall i :: 0 <= i < n ==>
      WasPushed(channel, Ancestors(chain, shard, tip)[i])
  }

  predicate WasPushed(channel: seq<Header>, id: BlockId) {
    exists h :: h in channel && h.Header? && h.id == id
  }

  function HeaderAt(path: seq<BlockId>, i: nat): Header
    requires i + 1 < |path|
  {
    Header(path[i], path[i + 1])
  }

  /** The walk pushed the first n blocks of the path, newest first, each with its parent, then perhaps a zero header. */
  ghost predicate EmittedPath(chain: Chain, shard: Bits8, tip: BlockId, n: nat, was: seq<Header>, now: seq<Header>,
                              crashed: bool)
    requires Descending(chain)
  {
    var path := Ancestors(chain, shard, tip);
    && n < |path| && |was| + n <= |now| && now[..|was|] == was
    && (forall i :: 0 <= i < n ==> now[|was| + i] == HeaderAt(path, i))
    && (|now| == |was| + n || (crashed && now == now[..|was| + n] + [ZeroHeader]))
  }

  lemma StartOfPath(chain: Chain, shard: Bits8, tip: BlockId, was: seq<Header>, known: BlockId)
    requires Descending(chain)
    ensures EmittedPath(chain, shard, tip, 0, was, was, false) && Unmet(chain, shard, tip, 0, known)
  {
    hide Ancestors, Descending;
  }

  lemma EmittedNothing(chain: Chain, shard: Bits8, tip: BlockId, n: nat, was: seq<Header>, now: seq<Header>)
    requires Descending(chain) && EmittedPath(chain, shard, tip, n, was, now, false)
    ensures EmittedPath(chain, shard, tip, n, was, now, true)
  {
    hide Ancestors, Descending;
  }

  lemma EmittedZero(chain: Chain, shard: Bits8, tip: BlockId, n: nat, was: seq<Header>, now: seq<Header>)
    requires Descending(chain) && EmittedPath(chain, shard, tip, n, was, now, false)
    ensures EmittedPath(chain, shard, tip, n, was, now + [ZeroHeader], true)
  {
    hide Ancestors, Descending;
    assert (now + [ZeroHeader])[..|was| + n] == now;
    assert (now + [ZeroHeader])[..|was|] == was;
  }

  lemma {:induction false} EmittedStep(chain: Chain, shard: Bits8, tip: BlockId, n: nat, was: seq<Header>,
                                       now: seq<Header>, known: BlockId)
    requires Descending(chain) && EmittedPath(chain, shard, tip, n, was, now, false)
      && n + 1 < |Ancestors(chain, shard, tip)|
    requires Unmet(chain, shard, tip, n, known) && Ancestors(chain, shard, tip)[n] != known
    ensures EmittedPath(chain, shard, tip, n + 1, was, now + [HeaderAt(Ancestors(chain, shard, tip), n)], false)
    ensures Unmet(chain, shard, tip, n + 1, known)
  {
    hide Ancestors, Descending;
    var later := now + [HeaderAt(Ancestors(chain, shard, tip), n)];
    assert later[..|was|] == was;
  }

  lemma PushedGrows(chain: Chain, shard: Bits8, channel: seq<Header>, more: Header, known: BlockId, start: BlockId)
    requires Descending(chain) && Covered(chain, shard, channel, known, start)
    ensures Covered(chain, shard, channel + [more], known, start)
  {
    hide Ancestors, Descending;
    var k: nat :| At(chain, shard, known, k, start) && Pushed(chain, shard, channel, known, k);
    forall i | 0 <= i < k ensures WasPushed(channel + [more], Ancestors(chain, shard, known)[i]) {
      assert WasPushed(channel, Ancestors(chain, shard, known)[i]);
    }
    assert Pushed(chain, shard, channel + [more], known, k);
  }

  lemma {:induction false} PathStep(chain: Chain, shard: Bits8, tip: BlockId, n: nat)
    requires Descending(chain) && n < |Ancestors(chain, shard, tip)|
    requires ParentOf(chain, shard, Ancestors(chain, shard, tip)[n]).Some?
    ensures n + 1 < |Ancestors(chain, shard, tip)|
    ensures Ancestors(chain, shard, tip)[n + 1] == ParentOf(chain, shard, Ancestors(chain, shard, tip)[n]).value
    ensures Ancestors(chain, shard, tip)[n + 1].seqno < Ancestors(chain, shard, tip)[n].seqno
  {
    hide Descending, ParentOf;
    AncestorsFrom(chain, shard, tip, n);
    var path := Ancestors(chain, shard, tip);
    ParentIsLower(chain, shard, path[n]);
    assert path[n..][1] == ParentOf(chain, shard, path[n]).value;
  }

  /** Where the parents cannot be followed the path ends. */
  lemma {:induction false} NoParent(chain: Chain, shard: Bits8, tip: BlockId, n: nat, known: BlockId)
    requires Descending(chain) && n < |Ancestors(chain, shard, tip)|
    requires ParentOf(chain, shard, Ancestors(chain, shard, tip)[n]).None? && Ancestors(chain, shard, tip)[n] != known
    requires Unmet(chain, shard, tip, n, known)
    ensures !Reached(chain, shard, tip, known)
  {
    hide Descending, ParentOf;
    AncestorsFrom(chain, shard, tip, n);
    assert Ancestors(chain, shard, tip)[n..] == [Ancestors(chain, shard, tip)[n]];
    assert |Ancestors(chain, shard, tip)| == n + 1;
  }

  /** The pushed part of the new path and the older path make one. */
  lemma WalkJoins(chain: Chain, shard: Bits8, tip: BlockId, n: nat, known: BlockId, start: BlockId, was: seq<Header>,
                  channel: seq<Header>)
    requires Descending(chain) && At(chain, shard, tip, n, known)
      && EmittedPath(chain, shard, tip, n, was, channel, false)
    requires Covered(chain, shard, channel, known, start)
    ensures Covered(chain, shard, channel, tip, start)
  {
    hide Descending, Ancestors;
    var k: nat :| At(chain, shard, known, k, start) && Pushed(chain, shard, channel, known, k);
    var path := Ancestors(chain, shard, tip);
    AncestorsFrom(chain, shard, tip, n);
    assert path[n..][k] == start;
    forall i | 0 <= i < n + k ensures WasPushed(channel, path[i]) {
      if i < n {
        assert channel[|was| + i] == HeaderAt(path, i);
        assert channel[|was| + i] in channel;
      } else {
        assert path[n..][i - n] == path[i];
      }
    }
    assert At(chain, shard, tip, n + k, start);
    assert Pushed(chain, shard, channel, tip, n + k);
  }

  /** The order on the channel: within one walk, newest first and each block once. */
  lemma NewestFirst(chain: Chain, shard: Bits8, tip: BlockId, n: nat, was: seq<Header>, now: seq<Header>, crashed: bool,
                    i: nat, j: nat)
    requires Descending(chain) && EmittedPath(chain, shard, tip, n, was, now, crashed) && i < j < n
    ensures now[|was| + i].Header? && now[|was| + j].Header?
    ensures now[|was| + j].id.seqno < now[|was| + i].id.seqno
  {
    hide Descending, Ancestors;
    AncestorsDescend(chain, shard, tip, i, j);
    var path := Ancestors(chain, shard, tip);
    assert now[|was| + i] == HeaderAt(path, i) && now[|was| + j] == HeaderAt(path, j);
  }
}
