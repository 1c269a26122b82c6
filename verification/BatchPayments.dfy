/** The batches and the payment protocol fit together: the events reconciled batch by batch are the events
  * the protocol's scan step expects of a block. */
module BatchPayments {
  import opened Base
  import opened Batch
  import opened Reconciliation
  import opened Ledger
  import P = Payments

  /** A batch executed in a block: its id, its contents, the positions emitted, and the scanner's events. */
  datatype Execution = Execution(u: MsgId, b: Withdrawals, at: seq<nat>, evs: seq<ExternalWithdrawal>)

  /** The chain's record of the batch: what it pays and what was really paid. */
  ghost predicate OnChain(s: P.Sys, n: nat, x: Execution) {
    && x.u in s.executed && s.executed[x.u].block == n && x.u in s.msgs
    && P.PaysTasks(s.msgs[x.u], x.b.external) && DistinctExternals(x.b)
    && forall k :: 0 <= k < |x.b.external| ==>
         (x.b.external[k].dest in s.executed[x.u].paid <==> Position(x.b, k) in x.at)
  }

  ghost predicate BlockOf(s: P.Sys, n: nat, xs: seq<Execution>) {
    && (forall i :: 0 <= i < |xs| ==>
         OnChain(s, n, xs[i]) && ExternalsReconciled(xs[i].b, xs[i].u, xs[i].at, xs[i].evs))
    && (forall i, j :: 0 <= i < j < |xs| ==> xs[i].u != xs[j].u)
    && forall m :: m in s.executed && s.executed[m].block == n && m in s.msgs ==>
         exists i :: 0 <= i < |xs| && xs[i].u == m
  }

  function AllEvents(xs: seq<Execution>): seq<ExternalWithdrawal> {
    if xs == [] then [] else AllEvents(xs[..|xs| - 1]) + xs[|xs| - 1].evs
  }

  lemma {:induction false} EventOrigin(xs: seq<Execution>, e: ExternalWithdrawal)
    ensures e in AllEvents(xs) <==> exists i :: 0 <= i < |xs| && e in xs[i].evs
    decreases |xs|
  {
    if xs != [] { EventOrigin(xs[..|xs| - 1], e); }
  }

  lemma EventOnChain(s: P.Sys, n: nat, x: Execution, e: ExternalWithdrawal)
    requires OnChain(s, n, x) && ExternalsReconciled(x.b, x.u, x.at, x.evs) && e in x.evs
    ensures e.msg == x.u && e.to in s.msgs[x.u].pays && (e.isFailed <==> e.to !in s.executed[x.u].paid)
  {
    assert EventOfTask(x.b, x.u, x.at, e);
    var k: nat :| k < |x.b.external| && e.to == x.b.external[k].dest && (e.isFailed <==> Position(x.b, k) !in x.at);
    assert x.b.external[k] in x.b.external;
  }

  predicate OnePerKey(evs: seq<ExternalWithdrawal>) {
    forall i, j :: 0 <= i < j < |evs| ==> P.EventKey(evs[i]) != P.EventKey(evs[j])
  }

  lemma {:induction false} DistinctEvents(s: P.Sys, n: nat, xs: seq<Execution>)
    requires forall i :: 0 <= i < |xs| ==>
      OnChain(s, n, xs[i]) && ExternalsReconciled(xs[i].b, xs[i].u, xs[i].at, xs[i].evs)
    requires forall i, j :: 0 <= i < j < |xs| ==> xs[i].u != xs[j].u
    ensures OnePerKey(AllEvents(xs))
    decreases |xs|
  {
    hide OnChain, ExternalsReconciled;
    if xs != [] {
      var last := |xs| - 1;
      var before, x := AllEvents(xs[..last]), xs[last];
      var evs := AllEvents(xs);
      DistinctEvents(s, n, xs[..last]);
      assert OnePerKey(before);
      forall i, j | 0 <= i < j < |evs| ensures P.EventKey(evs[i]) != P.EventKey(evs[j]) {
        if j < |before| {
          assert evs[i] == before[i] && evs[j] == before[j];
        } else {
          assert evs[j] == x.evs[j - |before|];
          EventOnChain(s, n, x, x.evs[j - |before|]);
          if i < |before| {
            assert evs[i] == before[i];
            EventOrigin(xs[..last], before[i]);
            var p :| 0 <= p < last && before[i] in xs[..last][p].evs;
            EventOnChain(s, n, xs[p], before[i]);
          } else {
            assert evs[i] == x.evs[i - |before|];
            DistinctTargets(x, i - |before|, j - |before|);
          }
        }
      }
    }
  }

  lemma DistinctTargets(x: Execution, i: nat, j: nat)
    requires ExternalsReconciled(x.b, x.u, x.at, x.evs) && i < j < |x.evs|
    ensures x.evs[i].to != x.evs[j].to
  {}

  lemma TaskReported(s: P.Sys, n: nat, x: Execution, a: Address)
    requires OnChain(s, n, x) && ExternalsReconciled(x.b, x.u, x.at, x.evs) && a in s.msgs[x.u].pays
    ensures exists e :: e in x.evs && P.EventKey(e) == ExtKey(x.u, a)
  {
    var t :| t in x.b.external && t.dest == a;
    var k :| 0 <= k < |x.b.external| && x.b.external[k] == t;
    assert Reported(x.b.external[k].dest, x.evs);
    var e :| e in x.evs && e.to == a;
    EventOnChain(s, n, x, e);
  }

  /** The events of all batches executed in a block are exactly what the payment protocol's scan accepts as that
    * block. */
  lemma {:induction false} BlockIsReconciled(s: P.Sys, n: nat, xs: seq<Execution>)
    requires BlockOf(s, n, xs)
    ensures P.Reconciled(s, n, AllEvents(xs))
  {
    hide OnChain, ExternalsReconciled, AllEvents;
    var evs := AllEvents(xs);
    DistinctEvents(s, n, xs);
    forall e | e in evs
      ensures e.msg in s.executed && s.executed[e.msg].block == n && e.msg in s.msgs && e.to in s.msgs[e.msg].pays
      ensures e.isFailed <==> e.to !in s.executed[e.msg].paid
    {
      EventOrigin(xs, e);
      var i :| 0 <= i < |xs| && e in xs[i].evs;
      Recorded(s, n, xs[i]);
      EventOnChain(s, n, xs[i], e);
    }
    forall m, a | m in s.executed && s.executed[m].block == n && m in s.msgs && a in s.msgs[m].pays
      ensures exists e :: e in evs && P.EventKey(e) == ExtKey(m, a)
    {
      var i :| 0 <= i < |xs| && xs[i].u == m;
      TaskReported(s, n, xs[i], a);
      var e :| e in xs[i].evs && P.EventKey(e) == ExtKey(m, a);
      EventOrigin(xs, e);
    }
  }

  lemma Recorded(s: P.Sys, n: nat, x: Execution)
    requires OnChain(s, n, x)
    ensures x.u in s.executed && s.executed[x.u].block == n && x.u in s.msgs
  {}
}
