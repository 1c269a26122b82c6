/** The scanner's step: a block's internal events always fit the tables, and applying them brings the rows
  * exactly up to the next block of the chain. */
module InternalScan {
  import opened Base
  import opened Ledger
  import opened BlockEffects
  import opened TaskQueries
  import opened Uuids
  import opened InternalRuns
  import opened InternalSafety

  // ---- Acceptance ----

  /** A memo that acts in the next block is open. */
  lemma ActiveIsOpen(slack: nat, s: Sys, m: Uuid)
    requires ChainInv(s) && RowsInv(slack, s)
    requires SentIn(s, s.saved, m) ||
      exists k :: k in s.chain.leaves && k.memo == m && s.chain.leaves[k].block == s.saved
    ensures m in s.t.internals && !s.t.internals[m].failed
  {
    hide Total;
    if m in s.chain.orders && s.chain.orders[m].block == s.saved {
      assert OrderOk(s, m);
    } else {
      var k :| k in s.chain.leaves && k.memo == m && s.chain.leaves[k].block == s.saved;
      assert LeaveOk(s, k);
    }
    assert RowInv(slack, s, m);
    forall l | l in s.chain.leaves && l.memo == m && !s.chain.leaves[l].ok ensures s.chain.leaves[l].block >= s.saved {
      assert LeaveOk(s, l);
    }
  }

  /** Memo and logical time of an arrival identify its departure. */
  lemma OneArrival(s: Sys, d: Departure, k: Departure)
    requires ChainInv(s) && d in s.chain.arrivals && k in s.chain.arrivals
    requires d.memo == k.memo && s.chain.arrivals[d].lt == s.chain.arrivals[k].lt
    ensures d == k
  {
    hide OrderOk, LeaveOk;
    assert ArrivalOk(s, d) && ArrivalOk(s, k);
  }

  lemma FreshIncome(s: Sys, e: Events, origin: seq<Origin>, i: InternalIncome)
    requires ChainInv(s) && HotInv(s) && Reconciled(s, s.saved, e, origin) && i in e.intIncomes
    ensures KeyOfIncome(i).Some? && KeyOfIncome(i).value !in s.t.intIncomes
  {
    hide ChainInv, WithdrawalsReconciled;
    var k :| IncomeOf(s, s.saved, k, i);
    var key := KeyOfIncome(i).value;
    forall d | SeenArrival(s, d, key) ensures d == k { OneArrival(s, d, k); }
  }

  lemma KnownMemo(slack: nat, s: Sys, k: Departure)
    requires ChainInv(s) && RowsInv(slack, s) && k in s.chain.leaves
    ensures k.memo in s.t.internals
  {
    hide Total, MaxOf;
    assert LeaveOk(s, k);
    assert RowInv(slack, s, k.memo);
  }

  /** Our own withdrawals always find their row ready. */
  lemma OwnEventIsReady(slack: nat, s: Sys, e: Events, origin: seq<Origin>, i: nat)
    requires ChainInv(s) && RowsInv(slack, s) && Reconciled(s, s.saved, e, origin)
    requires i < |e.intWithdrawals| && origin[i].Ours?
    ensures Ready(s.t.internals, e.sendings, e.intWithdrawals[i])
  {
    hide Total, MaxOf, GainsInOrder;
    var w := e.intWithdrawals[i];
    assert ComesFrom(s, s.saved, w, origin[i]);
    var k := origin[i].departure;
    assert LeaveOk(s, k);
    ActiveIsOpen(slack, s, k.memo);
    assert RowInv(slack, s, k.memo);
    if s.msgs[k.memo].ton { assert TonLeave(s, k); assert SentIn(s, s.saved, k.memo); }
  }

  /** A failure of our own is the only event of ours under its memo. */
  lemma OwnFailureIsAlone(s: Sys, e: Events, origin: seq<Origin>, i: nat, j: nat)
    requires ChainInv(s) && Reconciled(s, s.saved, e, origin) && i < |e.intWithdrawals| && j < |e.intWithdrawals|
      && i != j
    requires origin[i].Ours? && origin[j].Ours? && SameMemo(e.intWithdrawals[i], e.intWithdrawals[j])
    ensures !e.intWithdrawals[i].isFailed
  {
    var ws := e.intWithdrawals;
    assert ComesFrom(s, s.saved, ws[i], origin[i]) && ComesFrom(s, s.saved, ws[j], origin[j]);
    var k, l := origin[i].departure, origin[j].departure;
    assert LeaveOk(s, k) && LeaveOk(s, l);
    assert origin[i] != origin[j] by {
      if i < j { assert origin[i] != origin[j]; } else { assert origin[j] != origin[i]; }
    }
  }

  /** The tables can take a block's strange requests: each names a known, sent row that has not failed, and is the last
    * event of its memo. */
  predicate Bearable(s: Sys, e: Events, origin: seq<Origin>)
    requires |origin| == |e.intWithdrawals|
  {
    forall i :: 0 <= i < |origin| && origin[i].Strangers? ==> BearableAt(s, e, i)
  }

  predicate BearableAt(s: Sys, e: Events, i: nat)
    requires i < |e.intWithdrawals|
  {
    var ws := e.intWithdrawals;
    && Ready(s.t.internals, e.sendings, ws[i])
    && forall j :: 0 <= j < |ws| && j != i && SameMemo(ws[j], ws[i]) ==> j < i && !ws[j].isFailed
  }

  lemma SendingFits(slack: nat, s: Sys, c: SendingConfirmation)
    requires ChainInv(s) && RowsInv(slack, s)
    requires ParseUuid(c.memo).Some? && SentIn(s, s.saved, ParseUuid(c.memo).value)
    ensures Sendable(s.t.internals, c)
  {
    hide ChainInv, RowsInv;
    ActiveIsOpen(slack, s, ParseUuid(c.memo).value);
  }

  lemma IncomesFit(slack: nat, s: Sys, e: Events, origin: seq<Origin>)
    requires ChainInv(s) && RowsInv(slack, s) && HotInv(s) && Reconciled(s, s.saved, e, origin)
    ensures DistinctIncomes(e.intIncomes) && AllReceivable(s.t.intIncomes, e.intIncomes)
      && AllSendable(s.t.internals, e.sendings)
  {
    hide ChainInv, HotInv, RowInv, RowsInv, Sendable, WithdrawalsReconciled;
    forall i | 0 <= i < |e.intIncomes| ensures Receivable(s.t.intIncomes, e.intIncomes[i]) {
      FreshIncome(s, e, origin, e.intIncomes[i]);
    }
    forall i | 0 <= i < |e.sendings| ensures Sendable(s.t.internals, e.sendings[i]) {
      SendingFits(slack, s, e.sendings[i]);
    }
  }

  /** Exactly when the internal events of the next block are accepted: when its strange requests are bearable. */
  lemma AcceptedIff(slack: nat, s: Sys, e: Events, origin: seq<Origin>)
    requires ChainInv(s) && RowsInv(slack, s) && HotInv(s) && Reconciled(s, s.saved, e, origin)
    ensures Admissible(s.t, e) <==> Bearable(s, e, origin)
  {
    hide ChainInv, RowsInv, HotInv, Ready, AllReceivable, AllSendable, DistinctIncomes, Reconciled;
    IncomesFit(slack, s, e, origin);
    SameLength(s, e, origin);
    var ws := e.intWithdrawals;
    forall i | 0 <= i < |ws| && origin[i].Ours? ensures Ready(s.t.internals, e.sendings, ws[i]) {
      OwnEventIsReady(slack, s, e, origin, i);
    }
    forall i, j | 0 <= i < |ws| && 0 <= j < |ws| && i != j && origin[i].Ours? && origin[j].Ours?
      && SameMemo(ws[i], ws[j])
      ensures !ws[i].isFailed
    {
      OwnFailureIsAlone(s, e, origin, i, j);
    }
    forall i | 0 <= i < |ws| && origin[i].Strangers? ensures ws[i].isFailed { StrangersFail(s, e, origin, i); }
    FitIffBearable(s, e, origin);
  }

  lemma SameLength(s: Sys, e: Events, origin: seq<Origin>)
    requires Reconciled(s, s.saved, e, origin)
    ensures |origin| == |e.intWithdrawals|
  {}

  lemma StrangersFail(s: Sys, e: Events, origin: seq<Origin>, i: nat)
    requires Reconciled(s, s.saved, e, origin) && i < |e.intWithdrawals| && origin[i].Strangers?
    ensures e.intWithdrawals[i].isFailed && origin[i].id in s.chain.forged
      && s.chain.forged[origin[i].id].block == s.saved
  {
    assert ComesFrom(s, s.saved, e.intWithdrawals[i], origin[i]);
  }

  lemma FitIffBearable(s: Sys, e: Events, origin: seq<Origin>)
    requires |origin| == |e.intWithdrawals|
    requires var ws := e.intWithdrawals;
      && (forall i :: 0 <= i < |ws| && origin[i].Ours? ==> Ready(s.t.internals, e.sendings, ws[i]))
      && (forall i :: 0 <= i < |ws| && origin[i].Strangers? ==> ws[i].isFailed)
      && forall i, j :: 0 <= i < |ws| && 0 <= j < |ws| && i != j && origin[i].Ours? && origin[j].Ours?
           && SameMemo(ws[i], ws[j])
           ==> !ws[i].isFailed
    ensures FailuresLast(e.intWithdrawals) && AllReady(s.t.internals, e) <==> Bearable(s, e, origin)
  {
    hide Ready;
    var ws := e.intWithdrawals;
    if FailuresLast(ws) && AllReady(s.t.internals, e) {
      forall i | 0 <= i < |ws| && origin[i].Strangers? ensures BearableAt(s, e, i) {
        forall j | 0 <= j < |ws| && j != i && SameMemo(ws[j], ws[i]) ensures j < i && !ws[j].isFailed {
          NothingAfterFailure(ws, i, j);
        }
      }
    }
    if Bearable(s, e, origin) {
      assert forall i :: 0 <= i < |ws| && origin[i].Strangers? ==> BearableAt(s, e, i);
      forall i, j | 0 <= i < j < |ws| && SameMemo(ws[i], ws[j]) ensures !ws[i].isFailed {}
      forall i | 0 <= i < |ws| ensures Ready(s.t.internals, e.sendings, ws[i]) {
        if origin[i].Strangers? { assert BearableAt(s, e, i); }
      }
    }
  }

  lemma NothingAfterFailure(ws: seq<InternalWithdrawal>, i: nat, j: nat)
    requires FailuresLast(ws) && i < |ws| && j < |ws| && i != j && SameMemo(ws[i], ws[j]) && ws[i].isFailed
    ensures j < i && !ws[j].isFailed
  {}

  /** Without strangers, nothing has to be borne. */
  lemma OwnBlockIsBearable(s: Sys, e: Events, origin: seq<Origin>)
    requires Reconciled(s, s.saved, e, origin) && OwnBlock(s, s.saved)
    ensures |origin| == |e.intWithdrawals| && forall i :: 0 <= i < |origin| ==> origin[i].Ours?
  {
    hide GainsInOrder;
    forall i | 0 <= i < |origin| ensures origin[i].Ours? { if origin[i].Strangers? { StrangersFail(s, e, origin, i); } }
  }

  // ---- Effect ----

  lemma ViewAfter(s: Sys, e: Events, origin: seq<Origin>, s': Sys, m: Uuid)
    requires ChainInv(s) && Reconciled(s, s.saved, e, origin) && OwnBlock(s, s.saved)
    requires s'.chain == s.chain && s'.msgs == s.msgs && s'.saved == s.saved + 1
    ensures SentSeen(s', m) <==> SentSeen(s, m) || SendsIn(e.sendings, m)
    ensures FailSeen(s', m) <==> FailSeen(s, m) || FailsIn(e.intWithdrawals, m)
  {
    hide OrderOk, LeaveOk, ArrivalOk, GainsInOrder;
    SentAfter(s, e, origin, s', m);
    OwnBlockIsBearable(s, e, origin);
    var ws := e.intWithdrawals;
    if FailsIn(ws, m) {
      var w :| w in ws && ParseUuid(w.memo) == Some(m) && w.isFailed;
      var i :| 0 <= i < |ws| && ws[i] == w;
      assert ComesFrom(s, s.saved, ws[i], origin[i]);
    }
    if FailSeen(s', m) && !FailSeen(s, m) {
      var k :| k in s.chain.leaves && k.memo == m && s.chain.leaves[k].block < s'.saved && !s.chain.leaves[k].ok;
      var i := OwnEvent(s, e, origin, k);
      assert ws[i] in ws;
    }
  }

  lemma SentAfter(s: Sys, e: Events, origin: seq<Origin>, s': Sys, m: Uuid)
    requires Reconciled(s, s.saved, e, origin)
    requires s'.chain == s.chain && s'.msgs == s.msgs && s'.saved == s.saved + 1
    ensures SentSeen(s', m) <==> SentSeen(s, m) || SendsIn(e.sendings, m)
  {
    hide WithdrawalsReconciled;
    forall k: Departure ensures TonLeave(s', k) <==> TonLeave(s, k) {}
    assert SentSeen(s', m) <==> SentSeen(s, m) || SentIn(s, s.saved, m);
  }

  /** The event of one of our departures. */
  lemma OwnEvent(s: Sys, e: Events, origin: seq<Origin>, k: Departure) returns (i: nat)
    requires Reconciled(s, s.saved, e, origin) && k in s.chain.leaves && s.chain.leaves[k].block == s.saved
    ensures i < |e.intWithdrawals| && IsOf(e.intWithdrawals[i], k)
    ensures e.intWithdrawals[i].isFailed == !s.chain.leaves[k].ok
      && e.intWithdrawals[i].amount == s.chain.leaves[k].amount
  {
    hide GainsInOrder;
    i :| 0 <= i < |origin| && origin[i] == Ours(k);
    assert ComesFrom(s, s.saved, e.intWithdrawals[i], origin[i]);
  }

  lemma GainsAreDistinct(s: Sys, e: Events, origin: seq<Origin>)
    requires Reconciled(s, s.saved, e, origin)
    ensures DistinctGains(e.intWithdrawals)
  {
    var ws := e.intWithdrawals;
    forall i, j | 0 <= i < j < |ws| && !ws[i].isFailed && !ws[j].isFailed
      ensures (ParseUuid(ws[i].memo), ws[i].lt) != (ParseUuid(ws[j].memo), ws[j].lt) {
      assert ComesFrom(s, s.saved, ws[i], origin[i]) && ComesFrom(s, s.saved, ws[j], origin[j]);
      assert origin[i] != origin[j];
    }
  }

  predicate SuccessIn(s: Sys, n: nat, k: Departure) {
    k in s.chain.leaves && s.chain.leaves[k].block == n && s.chain.leaves[k].ok
  }

  lemma {:induction false} GainIsLeave(s: Sys, e: Events, origin: seq<Origin>, m: Uuid, lt: nat)
    requires Reconciled(s, s.saved, e, origin)
    ensures lt in Gains(e.intWithdrawals, m) <==> SuccessIn(s, s.saved, Departure(m, lt))
    ensures lt in Gains(e.intWithdrawals, m) ==>
      Gains(e.intWithdrawals, m)[lt] == s.chain.leaves[Departure(m, lt)].amount
  {
    hide GainsInOrder, Gains;
    var ws := e.intWithdrawals;
    GainsAreDistinct(s, e, origin);
    if SuccessIn(s, s.saved, Departure(m, lt)) {
      var i := OwnEvent(s, e, origin, Departure(m, lt));
      GainsValues(ws, ws[i], m);
    }
    if lt in Gains(ws, m) {
      GainsKeys(ws, m, lt);
      var w :| w in ws && ParseUuid(w.memo) == Some(m) && w.lt == lt && !w.isFailed;
      var i :| 0 <= i < |ws| && ws[i] == w;
      assert ComesFrom(s, s.saved, ws[i], origin[i]);
      GainsValues(ws, w, m);
    }
  }

  lemma {:induction false} LeavesAfter(s: Sys, e: Events, origin: seq<Origin>, s': Sys, m: Uuid)
    requires Reconciled(s, s.saved, e, origin)
    requires s'.chain == s.chain && s'.msgs == s.msgs && s'.saved == s.saved + 1
    ensures var g := Gains(e.intWithdrawals, m);
      SeenLeaves(s', m) == SeenLeaves(s, m) + g && SeenLeaves(s, m).Keys !! g.Keys
  {
    hide Gains, Reconciled, SeenLeaves;
    var g := Gains(e.intWithdrawals, m);
    var was, now := SeenLeaves(s, m), SeenLeaves(s', m);
    forall lt: nat
      ensures lt in now <==> lt in was || lt in g
      ensures !(lt in was && lt in g)
      ensures (lt in was ==> now[lt] == was[lt]) && (lt in g ==> now[lt] == g[lt])
    {
      GainIsLeave(s, e, origin, m, lt);
      SeenLeaf(s, m, lt);
      SeenLeaf(s', m, lt);
    }
    assert now.Keys == was.Keys + g.Keys;
  }

  /** The time a row ends with is the greatest of all its departures. */
  lemma {:induction false} LastTimeAfter(s: Sys, e: Events, origin: seq<Origin>, s': Sys, m: Uuid)
    requires ChainInv(s) && Reconciled(s, s.saved, e, origin)
    requires s'.chain == s.chain && s'.msgs == s.msgs && s'.saved == s.saved + 1
    ensures OrElse(LastGain(e.intWithdrawals, m), MaxOf(SeenLeaves(s, m).Keys)) == MaxOf(SeenLeaves(s', m).Keys)
  {
    hide ChainInv, Reconciled, SeenLeaves, Gains, LastGain;
    var g, was := Gains(e.intWithdrawals, m), SeenLeaves(s, m);
    LeavesAfter(s, e, origin, s', m);
    assert GainsInOrder(e.intWithdrawals) by { InOrder(s, e, origin); }
    LastGainIsGreatest(e.intWithdrawals, m);
    var now := SeenLeaves(s', m);
    assert now.Keys == was.Keys + g.Keys;
    if g == map[] {
      assert now.Keys == was.Keys;
    } else {
      forall a, b | a in was && b in g ensures a < b { LaterLeaves(s, e, origin, m, a, b); }
      var top := LastGain(e.intWithdrawals, m).value;
      assert top in now.Keys && forall lt :: lt in now.Keys ==> lt <= top;
      var max := MaxOf(now.Keys).value;
      assert max <= top <= max;
    }
  }

  lemma InOrder(s: Sys, e: Events, origin: seq<Origin>)
    requires Reconciled(s, s.saved, e, origin)
    ensures GainsInOrder(e.intWithdrawals)
  {}

  lemma {:induction false} LaterLeaves(s: Sys, e: Events, origin: seq<Origin>, m: Uuid, a: nat, b: nat)
    requires ChainInv(s) && Reconciled(s, s.saved, e, origin) && a in SeenLeaves(s, m)
      && b in Gains(e.intWithdrawals, m)
    ensures a < b
  {
    hide Reconciled, SeenLeaves, Gains, OrderOk, LeaveOk, ArrivalOk;
    SeenLeaf(s, m, a);
    GainIsLeave(s, e, origin, m, b);
    assert Departure(m, a).memo == Departure(m, b).memo;
  }

  lemma ScanKeepsRow(slack: nat, s: Sys, e: Events, origin: seq<Origin>, s': Sys, m: Uuid)
    requires ChainInv(s) && Reconciled(s, s.saved, e, origin) && OwnBlock(s, s.saved)
    requires m in s.t.internals && RowInv(slack, s, m) && s.saved < |s.chain.gens|
    requires m in s'.t.internals && s'.t.internals[m] == RowAfter(s.t.internals[m], e, m)
    requires s'.chain == s.chain && s'.msgs == s.msgs && s'.saved == s.saved + 1 && s'.spacing == s.spacing
    ensures RowInv(slack, s', m)
  {
    hide Total, SeenLeaves, SentSeen, FailSeen, Dead, ChainInv, Reconciled, Gains, SendsIn, FailsIn, MaxOf,
         GainSum, LastGain;
    ViewAfter(s, e, origin, s', m);
    LeavesAfter(s, e, origin, s', m);
    LastTimeAfter(s, e, origin, s', m);
    if Dead(s, m) { StaysDead(s, s', m); }
    GainsAreDistinct(s, e, origin);
    GainSumIsTotal(e.intWithdrawals, m);
    TotalUnion(SeenLeaves(s, m), Gains(e.intWithdrawals, m));
  }

  lemma StaysDead(s: Sys, s': Sys, m: Uuid)
    requires ChainInv(s) && Dead(s, m) && s.saved < |s.chain.gens|
    requires s'.chain == s.chain && s'.msgs == s.msgs && s'.saved == s.saved + 1 && s'.spacing == s.spacing
    ensures Dead(s', m)
  {
    assert s.chain.gens[s.saved - 1] + s.spacing * SECOND <= s.chain.gens[s.saved];
  }

  lemma ScanKeepsHot(s: Sys, e: Events, origin: seq<Origin>, s': Sys)
    requires ChainInv(s) && HotInv(s) && Reconciled(s, s.saved, e, origin)
    requires ReceivedBy(s.t.intIncomes, e.intIncomes, s'.t.intIncomes)
    requires s'.chain == s.chain && s'.msgs == s.msgs && s'.saved == s.saved + 1
    ensures HotInv(s')
  {
    hide ChainInv, WithdrawalsReconciled, SendsIn, SentIn, SeenArrival, IncomeOf;
    forall key | key in s'.t.intIncomes ensures exists k :: SeenArrival(s', k, key) {
      if key in s.t.intIncomes {
        var k :| SeenArrival(s, k, key);
        OldArrival(s, s', k, key);
      } else {
        var i :| i in e.intIncomes && KeyOfIncome(i) == Some(key);
        var k :| IncomeOf(s, s.saved, k, i);
        NewArrival(s, s', k, i);
      }
    }
    forall k | k in s'.chain.arrivals && s'.chain.arrivals[k].block < s'.saved
      ensures SeenArrival(s', k, IncomeKey(k.memo, s'.chain.arrivals[k].lt))
    {
      if s.chain.arrivals[k].block < s.saved {
        OldArrival(s, s', k, IncomeKey(k.memo, s.chain.arrivals[k].lt));
      } else {
        var i :| i in e.intIncomes && IncomeOf(s, s.saved, k, i);
        NewArrival(s, s', k, i);
      }
    }
  }

  lemma OldArrival(s: Sys, s': Sys, k: Departure, key: IncomeKey)
    requires SeenArrival(s, k, key) && s'.chain == s.chain && s'.saved == s.saved + 1
    requires forall l :: l in s.t.intIncomes ==> l in s'.t.intIncomes && s'.t.intIncomes[l] == s.t.intIncomes[l]
    ensures SeenArrival(s', k, key)
  {}

  lemma NewArrival(s: Sys, s': Sys, k: Departure, i: InternalIncome)
    requires IncomeOf(s, s.saved, k, i) && s'.chain == s.chain && s'.saved == s.saved + 1
    requires var key := KeyOfIncome(i); key.Some? ==> key.value in s'.t.intIncomes && s'.t.intIncomes[key.value] == i
    ensures KeyOfIncome(i) == Some(IncomeKey(k.memo, s.chain.arrivals[k].lt))
    ensures SeenArrival(s', k, KeyOfIncome(i).value)
  {}

  lemma ScanAdvances(s: Sys, e: Events, after: map<Uuid, IntRow>)
    requires after.Keys == s.t.internals.Keys
    requires forall m :: m in s.t.internals ==> after[m] == RowAfter(s.t.internals[m], e, m)
    ensures Advanced(s.t.internals, after)
  {
    hide GainSum, LastGain, LastSent, FailsIn;
  }

  lemma SameSaved(s: Sys, s': Sys)
    requires ChainInv(s) && CheckInv(s) && s'.chain == s.chain && s'.msgs == s.msgs && s'.spacing == s.spacing
    requires s.saved <= s'.saved <= |s.chain.gens| && s'.now == s.now && s'.checkedAt == s.checkedAt
    ensures ChainInv(s') && CheckInv(s')
  {
    forall m | m in s'.chain.orders ensures OrderOk(s', m) { assert OrderOk(s, m); }
    forall k | k in s'.chain.leaves ensures LeaveOk(s', k) { assert LeaveOk(s, k); }
    forall k | k in s'.chain.arrivals ensures ArrivalOk(s', k) { assert ArrivalOk(s, k); }
  }

  lemma KeepsScan(slack: nat, s: Sys, p: Step, s': Sys)
    requires Inv(slack, s) && Next(slack, s, p, s') && p.Scan? && p.at == s.saved
    requires OwnBlock(s, s.saved) || s'.saved == s.saved
    ensures Inv(slack, s')
  {
    hide ChainInv, HotInv, RowInv, Ordered, PickInv, Reconciled, Admissible, ReceivedBy, ApplyBlock, RowAfter, CheckInv,
         OwnBlock;
    var e := p.block.events;
    if ApplyBlock(s.t, p.block).Ok? {
      BlockEffect(s.t, p.block);
      var u :| BlockDone(s.t, e, u)
        && s'.t == u.(external := s'.t.external, blocks := s.t.blocks[p.block.key := p.block.genUtime]);
      ScanAdvances(s, e, s'.t.internals);
      forall m | m in s'.t.internals ensures RowInv(slack, s', m) { ScanKeepsRow(slack, s, e, p.origin, s', m); }
      ScanKeepsHot(s, e, p.origin, s');
      AdvancedKeeps(s, s');
      SameSaved(s, s');
    }
  }

  /** A scan that leaves blocks behind is one that first passes them over. */
  lemma PassThenScan(slack: nat, s: Sys, p: Step, s': Sys)
    requires Next(slack, s, p, s') && p.Scan? && s.saved <= p.at
    ensures Next(slack, Passed(s, p.at), p, s') || s' == s
  {
    hide Reconciled, ApplyBlock;
    var s1 := Passed(s, p.at);
    SameReconciled(s, s1, p.at, p.block.events, p.origin);
    assert s1.gaps + Between(p.at, p.at) == s1.gaps;
  }

  lemma SameReconciled(s: Sys, s': Sys, n: nat, e: Events, origin: seq<Origin>)
    requires s'.chain == s.chain && s'.msgs == s.msgs
    ensures Reconciled(s', n, e, origin) == Reconciled(s, n, e, origin)
  {
    hide GainsInOrder, DistinctIncomes, SendsIn;
    forall k: Departure ensures TonLeave(s', k) <==> TonLeave(s, k) {}
    forall m ensures SentIn(s', n, m) <==> SentIn(s, n, m) {}
    forall w, o ensures ComesFrom(s', n, w, o) <==> ComesFrom(s, n, w, o) {}
    forall k, i ensures IncomeOf(s', n, k, i) <==> IncomeOf(s, n, k, i) {}
  }

  // ---- A stranger's request that is accepted ----

  /** A row that failed although it was sent and no failure of ours was seen. */
  ghost predicate Broken(s: Sys, m: Uuid) {
    m in s.t.internals && s.t.internals[m].failed && SentSeen(s, m) && !FailSeen(s, m)
  }

  lemma BrokenBreaks(slack: nat, s: Sys, m: Uuid)
    requires Broken(s, m)
    ensures !Inv(slack, s)
  {
    hide HotInv, Ordered, PickInv, ChainInv, Total, MaxOf, SeenLeaves;
    SentIsNotDead(s, m);
    if Inv(slack, s) { FailureExplained(slack, s, m); }
  }

  lemma FailureExplained(slack: nat, s: Sys, m: Uuid)
    requires Inv(slack, s) && m in s.t.internals && s.t.internals[m].failed
    ensures Dead(s, m) || FailSeen(s, m)
  {
    hide HotInv, Ordered, PickInv, ChainInv, Total, MaxOf, SeenLeaves, Dead, FailSeen;
    assert RowInv(slack, s, m);
  }

  lemma SentIsNotDead(s: Sys, m: Uuid)
    requires SentSeen(s, m)
    ensures !Dead(s, m)
  {}

  lemma ForgeryBreaks(slack: nat, s: Sys, p: Step, s': Sys) returns (m: Uuid)
    requires Inv(slack, s) && Next(slack, s, p, s') && p.Scan? && p.at == s.saved
    requires s'.saved == s.saved + 1 && !OwnBlock(s, s.saved)
    ensures Broken(s', m)
  {
    hide ChainInv, HotInv, RowInv, Ordered, PickInv, Reconciled, Admissible, ReceivedBy, ApplyBlock, RowAfter, CheckInv,
         Inv;
    var e := p.block.events;
    BlockEffect(s.t, p.block);
    var u :| BlockDone(s.t, e, u)
      && s'.t == u.(external := s'.t.external, blocks := s.t.blocks[p.block.key := p.block.genUtime]);
    var id :| id in s.chain.forged && s.chain.forged[id].block == s.saved;
    var i := StrangeEvent(s, e, p.origin, id);
    m := ForgedMemo(s, e, i);
    assert RowsInv(slack, s) by { assert Inv(slack, s); InvHasRows(slack, s); }
    ForgedRow(slack, s, e, p.origin, i, s', m);
  }

  lemma ForgedMemo(s: Sys, e: Events, i: nat) returns (m: Uuid)
    requires Admissible(s.t, e) && i < |e.intWithdrawals|
    ensures ParseUuid(e.intWithdrawals[i].memo) == Some(m)
  {
    hide ParseUuid, DistinctIncomes, AllReceivable, AllSendable, FailuresLast;
    assert Ready(s.t.internals, e.sendings, e.intWithdrawals[i]);
    m := ParseUuid(e.intWithdrawals[i].memo).value;
  }

  lemma InvHasRows(slack: nat, s: Sys)
    requires Inv(slack, s)
    ensures RowsInv(slack, s)
  {
    hide RowsInv, ChainInv, HotInv, Ordered, PickInv;
  }

  lemma StrangeEvent(s: Sys, e: Events, origin: seq<Origin>, id: nat) returns (i: nat)
    requires Reconciled(s, s.saved, e, origin) && id in s.chain.forged && s.chain.forged[id].block == s.saved
    ensures i < |e.intWithdrawals| && origin[i] == Strangers(id) && e.intWithdrawals[i].isFailed
    ensures |origin| == |e.intWithdrawals|
  {
    hide GainsInOrder;
    i :| 0 <= i < |origin| && origin[i] == Strangers(id);
    StrangersFail(s, e, origin, i);
  }

  lemma ForgedRow(slack: nat, s: Sys, e: Events, origin: seq<Origin>, i: nat, s': Sys, m: Uuid)
    requires Reconciled(s, s.saved, e, origin) && RowsInv(slack, s) && Admissible(s.t, e)
    requires i < |e.intWithdrawals| && |origin| == |e.intWithdrawals| && origin[i].Strangers?
      && e.intWithdrawals[i].isFailed
    requires s'.chain == s.chain && s'.msgs == s.msgs && s'.saved == s.saved + 1
      && s'.t.internals.Keys == s.t.internals.Keys
    requires ParseUuid(e.intWithdrawals[i].memo) == Some(m)
    requires forall m :: m in s.t.internals ==> s'.t.internals[m] == RowAfter(s.t.internals[m], e, m)
    ensures Broken(s', m)
  {
    hide Total, MaxOf, SeenLeaves, SentSeen, GainsInOrder, DistinctIncomes, AllReceivable, AllSendable, GainSum,
         LastGain, LastSent;
    var ws := e.intWithdrawals;
    assert Ready(s.t.internals, e.sendings, ws[i]);
    assert RowInv(slack, s, m);
    SentAfter(s, e, origin, s', m);
    assert ws[i] in ws && FailsIn(ws, m);
    forall k | k in s.chain.leaves && k.memo == m && s.chain.leaves[k].block < s'.saved ensures s.chain.leaves[k].ok {
      if s.chain.leaves[k].block == s.saved {
        var j := OwnEventAt(s, e, origin, k);
        NothingAfterFailure(ws, i, j);
      }
    }
  }

  lemma OwnEventAt(s: Sys, e: Events, origin: seq<Origin>, k: Departure) returns (j: nat)
    requires Reconciled(s, s.saved, e, origin) && k in s.chain.leaves && s.chain.leaves[k].block == s.saved
    ensures j < |origin| == |e.intWithdrawals| && origin[j] == Ours(k)
    ensures ParseUuid(e.intWithdrawals[j].memo) == Some(k.memo)
    ensures e.intWithdrawals[j].isFailed == !s.chain.leaves[k].ok
  {
    hide GainsInOrder;
    j :| 0 <= j < |origin| && origin[j] == Ours(k);
    assert ComesFrom(s, s.saved, e.intWithdrawals[j], origin[j]);
  }
}
