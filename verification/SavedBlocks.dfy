/** What the greatest saved block number tells. Along the path of a shard the row with the greatest number is the newest
  * saved block; everything below it is saved too if and only if the saved blocks have no gap. */
module SavedBlocks {
  import opened Base
  import opened Shards
  import opened ShardWalk
  import I = InternalRuns
  import P = Payments
  import R = PaymentRuns
  import T = InternalTheorems

  /** What GetLastSavedBlock returns of a table. */
  predicate Greatest(rows: map<BlockKey, Time>, r: BlockKey) {
    r in rows && forall k :: k in rows ==> k.seqno <= r.seqno
  }

  /** A path of a shard, newest block first, and how its shard prefixes are numbered. */
  datatype Path = Path(ids: seq<BlockId>, number: Bits64 -> nat) {
    function Key(i: nat): BlockKey requires i < |ids| { BlockKey(number(ids[i].shard), ids[i].seqno) }
  }

  ghost predicate PathOf(chain: Chain, shard: Bits8, tip: BlockId, p: Path) {
    Descending(chain) && p.ids == Ancestors(chain, shard, tip)
  }

  predicate SavedAt(rows: map<BlockKey, Time>, p: Path, i: nat) {
    i < |p.ids| && p.Key(i) in rows
  }

  predicate IsRow(rows: map<BlockKey, Time>, p: Path, i: nat, k: BlockKey) {
    SavedAt(rows, p, i) && p.Key(i) == k
  }

  /** Every row is a block of the path. */
  ghost predicate RowsOf(rows: map<BlockKey, Time>, p: Path) {
    forall k :: k in rows ==> exists i: nat :: IsRow(rows, p, i, k)
  }

  /** The row with the greatest number is the newest saved block, and no other. */
  lemma GreatestIsNewest(chain: Chain, shard: Bits8, tip: BlockId, p: Path, rows: map<BlockKey, Time>,
                         r: BlockKey) returns (n: nat)
    requires PathOf(chain, shard, tip, p) && RowsOf(rows, p) && Greatest(rows, r)
    ensures IsRow(rows, p, n, r) && forall i: nat :: SavedAt(rows, p, i) ==> n <= i
  {
    hide Ancestors, Descending;
    n :| IsRow(rows, p, n, r);
    forall i: nat | SavedAt(rows, p, i) ensures n <= i {
      if i < n { AncestorsDescend(chain, shard, tip, i, n); }
    }
  }

  /** Everything the path has below a block is saved. */
  ghost predicate SavedBelow(rows: map<BlockKey, Time>, p: Path, n: nat) {
    forall i: nat :: n <= i < |p.ids| ==> SavedAt(rows, p, i)
  }

  /** Saved blocks form one piece up to the oldest. */
  ghost predicate GapFree(rows: map<BlockKey, Time>, p: Path) {
    forall i: nat, j: nat :: SavedAt(rows, p, i) && i < j < |p.ids| ==> SavedAt(rows, p, j)
  }

  /** What the sync checks take for granted holds exactly when there is no gap: all below the greatest number is
    * saved. */
  lemma GreatestCoversIffGapFree(chain: Chain, shard: Bits8, tip: BlockId, p: Path, rows: map<BlockKey, Time>,
                                 r: BlockKey)
    requires PathOf(chain, shard, tip, p) && RowsOf(rows, p) && Greatest(rows, r)
    ensures (exists n: nat :: IsRow(rows, p, n, r) && SavedBelow(rows, p, n)) <==> GapFree(rows, p)
  {
    hide Ancestors, Descending, RowsOf, SavedAt;
    var n := GreatestIsNewest(chain, shard, tip, p, rows, r);
    if GapFree(rows, p) {
      forall i: nat | n <= i < |p.ids| ensures SavedAt(rows, p, i) { if i > n { assert SavedAt(rows, p, n); } }
      assert SavedBelow(rows, p, n);
    }
    if m: nat :| IsRow(rows, p, m, r) && SavedBelow(rows, p, m) {
      forall i: nat, j: nat | SavedAt(rows, p, i) && i < j < |p.ids| ensures SavedAt(rows, p, j) {
        SavedIsLower(chain, shard, tip, p, rows, r, m, i);
      }
    }
  }

  lemma SavedIsLower(chain: Chain, shard: Bits8, tip: BlockId, p: Path, rows: map<BlockKey, Time>, r: BlockKey, m: nat,
                     i: nat)
    requires PathOf(chain, shard, tip, p) && Greatest(rows, r) && IsRow(rows, p, m, r) && SavedAt(rows, p, i)
    ensures m <= i
  {
    hide Ancestors, Descending;
    if i < m { AncestorsDescend(chain, shard, tip, i, m); }
  }

  /** The blocks of one walk, pushed newest first, are saved in that order: the first `j` of its `n`, and all older
    * ones. */
  ghost predicate Walking(rows: map<BlockKey, Time>, p: Path, n: nat, j: nat) {
    j <= n <= |p.ids| && forall i: nat :: i < |p.ids| ==> (SavedAt(rows, p, i) <==> i < j || n <= i)
  }

  /** So while the scanner works through a walk of several blocks, there is a gap: exactly until it has saved them
    * all. */
  lemma GapDuringWalk(p: Path, rows: map<BlockKey, Time>, n: nat, j: nat)
    requires Walking(rows, p, n, j)
    ensures GapFree(rows, p) <==> j == 0 || j == n
  {
    hide SavedAt;
    if 0 < j < n { assert SavedAt(rows, p, 0) && !SavedAt(rows, p, j); }
  }

  // ---- The runs' saved blocks ----

  /** The rows are the blocks of the path below number `saved`, counted from the oldest, that are no gaps, with their
    * times. */
  ghost predicate Mirrors(rows: map<BlockKey, Time>, p: Path, gens: seq<Time>, saved: nat, gaps: set<nat>) {
    && |gens| == |p.ids| && saved <= |gens| && RowsOf(rows, p)
    && forall i: nat :: i < |gens| ==>
         && (SavedAt(rows, p, i) <==> |gens| - 1 - i < saved && |gens| - 1 - i !in gaps)
         && (SavedAt(rows, p, i) ==> rows[p.Key(i)] == gens[|gens| - 1 - i])
  }

  /** In every state that runs reach, the row with the greatest number is the last saved block of the run, whatever gaps
    * there are, and the sync tests read its time. */
  lemma {:induction false} LastSavedIsGreatest(chain: Chain, shard: Bits8, tip: BlockId, p: Path,
                                               rows: map<BlockKey, Time>, r: BlockKey, ps: R.PaymentRun, slack: nat,
                                               ir: I.InternalRun)
    requires PathOf(chain, shard, tip, p) && Greatest(rows, r)
    requires R.IsRun(ps) && R.HarmlessExpiry(ps) && Mirrors(rows, p, ps.last.blocks, ps.last.saved, ps.last.gaps)
    requires I.IsRun(slack, ir) && Mirrors(rows, p, ir.last.chain.gens, ir.last.saved, ir.last.gaps)
    ensures ps.last.saved > 0 && rows[r] == ps.last.blocks[ps.last.saved - 1]
    ensures P.InSync(ps.last) <==> ps.last.now - rows[r] <= ALLOWABLE_LAG
    ensures ir.last.saved > 0 && rows[r] == ir.last.chain.gens[ir.last.saved - 1]
    ensures I.InSync(ir.last) <==> ir.last.now - rows[r] <= ALLOWABLE_LAG
  {
    hide PathOf, Greatest, Mirrors, R.IsRun, R.HarmlessExpiry, I.IsRun, P.Inv;
    R.RunKeepsInv(ps);
    assert P.GapsInv(ps.last) by { HasGaps(ps.last); }
    T.StaysInPlace(slack, ir);
    NewestOfMirror(chain, shard, tip, p, rows, r, ps.last.blocks, ps.last.saved, ps.last.gaps);
    NewestOfMirror(chain, shard, tip, p, rows, r, ir.last.chain.gens, ir.last.saved, ir.last.gaps);
    MirrorLength(rows, p, ps.last.blocks, ps.last.saved, ps.last.gaps);
    MirrorLength(rows, p, ir.last.chain.gens, ir.last.saved, ir.last.gaps);
  }

  lemma HasGaps(s: P.Sys)
    requires P.Inv(s)
    ensures P.GapsInv(s)
  {
    hide P.RowsInv, P.SentInv, P.RequestsInv, P.PhaseInv, P.CheckInv;
  }

  lemma MirrorLength(rows: map<BlockKey, Time>, p: Path, gens: seq<Time>, saved: nat, gaps: set<nat>)
    requires Mirrors(rows, p, gens, saved, gaps)
    ensures saved <= |gens|
  {}

  /** And the table has no gap exactly when the run has none. */
  lemma GapFreeIff(p: Path, rows: map<BlockKey, Time>, gens: seq<Time>, saved: nat, gaps: set<nat>)
    requires Mirrors(rows, p, gens, saved, gaps) && forall n :: n in gaps ==> n < saved
    requires saved > 0 ==> saved - 1 !in gaps
    ensures GapFree(rows, p) <==> gaps == {}
  {
    hide SavedAt, RowsOf;
    if g :| g in gaps {
      var i, j := |gens| - saved, |gens| - 1 - g;
      assert |gens| - 1 - i == saved - 1 && |gens| - 1 - j == g;
      assert SavedAt(rows, p, i) && !SavedAt(rows, p, j);
    }
  }

  lemma NewestOfMirror(chain: Chain, shard: Bits8, tip: BlockId, p: Path, rows: map<BlockKey, Time>, r: BlockKey,
                       gens: seq<Time>, saved: nat, gaps: set<nat>)
    requires PathOf(chain, shard, tip, p) && Greatest(rows, r) && Mirrors(rows, p, gens, saved, gaps)
    requires saved > 0 ==> saved - 1 !in gaps
    ensures saved > 0 && rows[r] == gens[saved - 1]
  {
    hide Ancestors, Descending, SavedAt, Greatest, RowsOf;
    var n := GreatestIsNewest(chain, shard, tip, p, rows, r);
    assert SavedAt(rows, p, n);
    InPath(rows, p, n);
    var i := |gens| - saved;
    assert |gens| - 1 - i == saved - 1;
    assert SavedAt(rows, p, i);
  }

  lemma InPath(rows: map<BlockKey, Time>, p: Path, n: nat)
    requires SavedAt(rows, p, n)
    ensures n < |p.ids|
  {}
}
