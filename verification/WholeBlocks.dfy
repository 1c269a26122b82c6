/** A whole scanned block against the tables: internal and external events, confirmations and the block's own row. */
module WholeBlocks {
  import opened Base
  import opened BlockApplication
  import opened BlockEffects
  import opened InternalRuns
  import opened InternalSafety
  import opened InternalScan
  import opened InternalTheorems
  import opened Ledger
  import opened LedgerLaws
  import B = BatchPayments
  import P = Payments
  import R = PaymentRuns
  import S = BlockScan

  lemma {:induction false} ExternalsApply(t: Tables, evs: seq<ExternalWithdrawal>)
    ensures var r, x := ApplyChanges(t, ExternalChanges(evs)), P.ApplyExternal(t.external, evs);
      if x.Ok? then r == Ok(t.(external := x.value)) else r.Err?
    decreases |evs|
  {
    hide UpdateExternal;
    if evs != [] {
      var n := |evs| - 1;
      ExternalsApply(t, evs[..n]);
      assert ExternalChanges(evs)[..n] == ExternalChanges(evs[..n]);
    }
  }

  lemma {:induction false} ConfirmationsApply(t: Tables, cs: seq<WithdrawalConfirmation>)
    ensures ApplyChanges(t, ConfirmationChanges(cs)).Ok?
    decreases |cs|
  {
    hide ConfirmExternal;
    if cs != [] {
      var n := |cs| - 1;
      ConfirmationsApply(t, cs[..n]);
      assert ConfirmationChanges(cs)[..n] == ConfirmationChanges(cs[..n]);
    }
  }

  lemma {:induction false} ExternalsAreBlind(x: External, y: External, evs: seq<ExternalWithdrawal>)
    requires SameButConfirmed(x, y)
    ensures var a, b := P.ApplyExternal(x, evs), P.ApplyExternal(y, evs);
      if a.Ok? then b.Ok? && SameButConfirmed(a.value, b.value) else b == Err(a.error)
    decreases |evs|
  {
    hide UpdateExternal, SameButConfirmed;
    if evs != [] {
      var n := |evs| - 1;
      ExternalsAreBlind(x, y, evs[..n]);
      var a, b := P.ApplyExternal(x, evs[..n]), P.ApplyExternal(y, evs[..n]);
      if a.Ok? { UpdateIsBlind(a.value, b.value, evs[n]); }
    }
  }

  /** A block is accepted exactly when its internal and its external events are, each on their own, and it is new. */
  lemma BlockAcceptedIff(t: Tables, b: BlockEvents)
    ensures ApplyBlock(t, b).Ok? <==>
      && ApplyChanges(t, InnerChanges(b.events)).Ok? && P.ApplyExternal(t.external, b.events.extWithdrawals).Ok?
      && b.key !in t.blocks
  {
    hide ApplyChanges, P.ApplyExternal, BlockDone, Admissible;
    var e := b.events;
    var inner, exts, cs := InnerChanges(e), ExternalChanges(e.extWithdrawals), ConfirmationChanges(e.confirmations);
    assert ChangesOf(e) == inner + exts + cs;
    ApplyConcat(t, inner + exts, cs);
    ApplyConcat(t, inner, exts);
    InnerExact(t, e);
    ChangesKeepBlocks(t, ChangesOf(e));
    if ApplyChanges(t, inner).Ok? {
      var u := ApplyChanges(t, inner).value;
      assert u.external == t.external by { KeepsExternal(t, e, u); }
      ExternalsApply(u, e.extWithdrawals);
      if P.ApplyExternal(t.external, e.extWithdrawals).Ok? {
        ConfirmationsApply(ApplyChanges(u, exts).value, e.confirmations);
      }
    }
  }

  lemma KeepsExternal(t: Tables, e: Events, u: Tables)
    requires BlockDone(t, e, u)
    ensures u.external == t.external
  {}

  /** The tables of an internal run and of a payment run are one database, what excesses confirm aside. */
  ghost predicate OneDatabase(s: Sys, p: P.Sys) { SameButConfirmed(p.external, s.t.external) }

  /** The whole block in both runs' terms, the scanner having left nothing of ours behind. */
  ghost predicate BothReconciled(s: Sys, at: nat, p: P.Sys, n: nat, e: Events, origin: seq<Origin>) {
    && s.saved <= at < |s.chain.gens| && (forall i :: s.saved <= i < at ==> Idle(s, i)) && Reconciled(s, at, e, origin)
    && p.saved <= n < |p.blocks| && P.Reconciled(p, n, e.extWithdrawals)
  }

  /** The tables accept a whole block if and only if the strangers' requests in it are bearable and its row is new. */
  lemma {:induction false} WholeBlockAccepted(slack: nat, r: InternalRun, at: nat, p: R.PaymentRun, n: nat,
                                              b: BlockEvents, origin: seq<Origin>)
    requires IsRun(slack, r) && ExpiryGuarded(slack, r) && Clean(r.last) && R.IsRun(p) && R.HarmlessExpiry(p)
    requires OneDatabase(r.last, p.last) && BothReconciled(r.last, at, p.last, n, b.events, origin)
    ensures |origin| == |b.events.intWithdrawals|
    ensures ApplyBlock(r.last.t, b).Ok? <==> Bearable(r.last, b.events, origin) && b.key !in r.last.t.blocks
    ensures OwnBlock(r.last, at) ==> (ApplyBlock(r.last.t, b).Ok? <==> b.key !in r.last.t.blocks)
  {
    hide IsRun, ExpiryGuarded, Clean, R.IsRun, R.HarmlessExpiry, Reconciled, P.Reconciled, ApplyBlock, ApplyChanges,
         P.ApplyExternal, Bearable, OwnBlock, Idle, SameButConfirmed;
    ScanAccepted(slack, r, at, b.events, origin);
    R.TablesMatchChain(p, n, b.events.extWithdrawals);
    ExternalsAreBlind(p.last.external, r.last.t.external, b.events.extWithdrawals);
    BlockAcceptedIff(r.last.t, b);
  }

  /** From transactions to tables: so it is of whatever the scanner reads in the accounts of a block and in the batches
    * executed in it. */
  lemma {:induction false} ScannedWholeBlockAccepted(slack: nat, r: InternalRun, at: nat, p: R.PaymentRun, n: nat,
                                                     parts: seq<S.Part>, es: seq<Events>, ps: seq<S.Piece>,
                                                     xs: seq<B.Execution>, b: BlockEvents)
    requires IsRun(slack, r) && ExpiryGuarded(slack, r) && Clean(r.last) && R.IsRun(p) && R.HarmlessExpiry(p)
    requires OneDatabase(r.last, p.last) && S.Scanned(r.last, at, parts, es, ps)
    requires r.last.saved <= at < |r.last.chain.gens| && forall i :: r.last.saved <= i < at ==> Idle(r.last, i)
    requires p.last.saved <= n < |p.last.blocks| && B.BlockOf(p.last, n, xs)
    requires b.events == S.Whole(ps).events && b.events.extWithdrawals == B.AllEvents(xs)
    ensures |S.Whole(ps).origin| == |b.events.intWithdrawals|
    ensures ApplyBlock(r.last.t, b).Ok? <==>
      Bearable(r.last, b.events, S.Whole(ps).origin) && b.key !in r.last.t.blocks
  {
    hide IsRun, ExpiryGuarded, Unforged, Lossless, R.IsRun, R.HarmlessExpiry, Reconciled, P.Reconciled, ApplyBlock,
         Bearable, OwnBlock, Idle, S.Scanned, S.Whole, B.BlockOf,
         B.AllEvents, OneDatabase, RowsInv, HotInv, ChainInv;
    RunKeepsInv(slack, r);
    S.BlockIsReconciled(r.last, at, parts, es, ps);
    B.BlockIsReconciled(p.last, n, xs);
    WholeBlockAccepted(slack, r, at, p, n, b, S.Whole(ps).origin);
  }
}
