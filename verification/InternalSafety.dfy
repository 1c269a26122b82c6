/** Every step keeps the invariant of the internal withdrawals; what holds in every reachable state follows. */
module InternalSafety {
  import opened Base
  import opened Ledger
  import opened BlockEffects
  import opened TaskQueries
  import opened InternalRuns

  // ---- The invariant implies good rows ----

  lemma InvRow(slack: nat, s: Sys, m: Uuid)
    requires ChainInv(s) && m in s.t.internals && RowInv(slack, s, m)
    ensures RowOk(s.t.internals[m])
  {
    hide Total;
    var seen := SeenLeaves(s, m);
    if seen != map[] {
      assert seen.Keys != {};
      var lt :| lt in seen;
      var k := Departure(m, lt);
      assert LeaveOk(s, k);
      if s.msgs[m].ton { assert TonLeave(s, k); }
      forall l | l in s.chain.leaves && l.memo == m ensures s.chain.leaves[l].ok { assert LeaveOk(s, l); }
      forall x | x in seen ensures x >= s.msgs[m].since { assert LeaveOk(s, Departure(m, x)); }
    }
  }

  lemma InvRows(slack: nat, s: Sys)
    requires Inv(slack, s)
    ensures RowsOk(s.t.internals)
  {
    hide RowInv;
    forall m | m in s.t.internals ensures RowOk(s.t.internals[m]) { InvRow(slack, s, m); }
  }

  // ---- What a row sees of the chain ----

  /** A row keeps its invariant while its view of the chain is the same; it may fail once it is dead. */
  lemma SameRow(slack: nat, s: Sys, s': Sys, m: Uuid)
    requires m in s.t.internals && RowInv(slack, s, m) && m in s'.t.internals
    requires m in s'.msgs && s'.msgs[m] == s.msgs[m]
    requires SeenLeaves(s', m) == SeenLeaves(s, m) && SentSeen(s', m) == SentSeen(s, m)
      && FailSeen(s', m) == FailSeen(s, m)
    requires Dead(s, m) ==> Dead(s', m)
    requires s'.t.internals[m] == s.t.internals[m].(failed := s'.t.internals[m].failed)
    requires s'.t.internals[m].failed == s.t.internals[m].failed || (s'.t.internals[m].failed && Dead(s', m))
    ensures RowInv(slack, s', m)
  {
    hide SeenLeaves, SentSeen, FailSeen, Dead, Total, MaxOf;
  }

  lemma SameChainView(s: Sys, s': Sys, m: Uuid)
    requires s'.chain == s.chain && s'.saved == s.saved && s'.spacing == s.spacing
    requires m in s.msgs && m in s'.msgs && s'.msgs[m] == s.msgs[m]
    ensures SeenLeaves(s', m) == SeenLeaves(s, m) && SentSeen(s', m) == SentSeen(s, m)
      && FailSeen(s', m) == FailSeen(s, m)
    ensures Dead(s', m) == Dead(s, m)
  {
    hide SeenLeaves;
    SameLeaves(s, s', m);
    forall k: Departure | k.memo == m ensures TonLeave(s', k) <==> TonLeave(s, k) {}
  }

  lemma SeenLeaf(s: Sys, m: Uuid, lt: nat)
    ensures var k := Departure(m, lt);
      && (lt in SeenLeaves(s, m) <==> k in s.chain.leaves && s.chain.leaves[k].block < s.saved && s.chain.leaves[k].ok)
      && (lt in SeenLeaves(s, m) ==> SeenLeaves(s, m)[lt] == s.chain.leaves[k].amount)
  {
    var k := Departure(m, lt);
    if k in s.chain.leaves && s.chain.leaves[k].block < s.saved && s.chain.leaves[k].ok {
      assert k.lt in SeenLeaves(s, m);
    }
  }

  lemma SameLeaves(s: Sys, s': Sys, m: Uuid)
    requires s'.chain == s.chain && s'.saved == s.saved
    ensures SeenLeaves(s', m) == SeenLeaves(s, m)
  {}

  lemma SameHot(s: Sys, s': Sys)
    requires HotInv(s) && s'.chain == s.chain && s'.saved == s.saved && s'.t.intIncomes == s.t.intIncomes
    ensures HotInv(s')
  {
    forall k, key ensures SeenArrival(s', k, key) <==> SeenArrival(s, k, key) {}
  }

  // ---- Rows only move on ----

  /** Rows keep their deposit and start; they may fail or finish, and neither is undone. */
  predicate Advanced(rows: map<Uuid, IntRow>, after: map<Uuid, IntRow>) {
    && after.Keys == rows.Keys
    && forall m :: m in rows ==>
         && after[m].deposit == rows[m].deposit && after[m].sinceLt == rows[m].sinceLt
         && (rows[m].failed ==> after[m].failed) && (rows[m].finishLt.Some? ==> after[m].finishLt.Some?)
  }

  lemma AdvancedKeeps(s: Sys, s': Sys)
    requires Ordered(s.t.internals) && PickInv(s) && Advanced(s.t.internals, s'.t.internals)
    requires s'.picked == s.picked && s'.pickedTon == s.pickedTon && s'.wallets == s.wallets
    ensures Ordered(s'.t.internals) && PickInv(s')
  {
    forall t | t in s'.picked + s'.pickedTon ensures Startable(s'.t.internals, t) {
      forall m | Live(s'.t.internals, m, t.deposit)
        ensures s'.t.internals[m].finishLt.Some? && s'.t.internals[m].sinceLt < t.lt {
        assert Live(s.t.internals, m, t.deposit);
      }
    }
  }

  // ---- Picking and saving ----

  lemma DueIsStartable(slack: nat, s: Sys, t: InternalTask)
    requires Inv(slack, s)
    requires JettonDue(DbOf(s), t.deposit) || TonDue(DbOf(s), t.deposit)
    requires t.lt == MaxOf(IncomeLts(DbOf(s), t.deposit)).value
    ensures Startable(s.t.internals, t)
  {
    InvRows(slack, s);
    var rows, d := s.t.internals, t.deposit;
    forall m | Live(rows, m, d) ensures rows[m].finishLt.Some? && rows[m].sinceLt < t.lt {
      if rows[m].finishLt.None? { assert InFlight(rows, m, d); assert Pending(rows, d); assert false; }
      var n := NewestExists(rows, d, m);
      assert RowOk(rows[n]);
    }
  }

  lemma KeepsPick(slack: nat, s: Sys, p: Step, s': Sys)
    requires Inv(slack, s) && Next(slack, s, p, s') && (p.PickJetton? || p.PickTon?)
    ensures Inv(slack, s')
  {
    hide JettonQuery, TonQuery, JettonDue, TonDue, Startable, ChainInv, HotInv, RowInv, Ordered, IncomeLts, RowsOk;
    SameView(slack, s, s');
    InvRows(slack, s);
    var tasks := if p.PickJetton? then p.tasks else p.tonTasks;
    forall t | t in tasks ensures Startable(s'.t.internals, t) && (t.deposit in s.wallets.jetton <==> p.PickJetton?) {
      if p.PickJetton? { JettonQueryRefines(DbOf(s), p.excluded, t); } else { TonQueryRefines(DbOf(s), t); }
      DueIsStartable(slack, s, t);
    }
    forall t, u | t in tasks && u in tasks && t.deposit == u.deposit ensures t == u {
      if p.PickJetton? {
        JettonQueryRefines(DbOf(s), p.excluded, t);
        JettonQueryRefines(DbOf(s), p.excluded, u);
      } else {
        TonQueryRefines(DbOf(s), t);
        TonQueryRefines(DbOf(s), u);
      }
    }
  }

  /** What does not depend on the picked tasks. */
  lemma SameView(slack: nat, s: Sys, s': Sys)
    requires Inv(slack, s) && s' ==
      s.(picked := s'.picked, pickedTon := s'.pickedTon, now := s'.now, checkedAt := s'.checkedAt)
    ensures ChainInv(s') && RowsInv(slack, s') && HotInv(s') && Ordered(s'.t.internals)
  {
    hide RowInv, HotInv, Ordered, PickInv, ChainInv, SeenLeaves, SentSeen, FailSeen, Dead;
    forall m | m in s'.t.internals ensures RowInv(slack, s', m) {
      assert m in s.msgs;
      SameChainView(s, s', m);
      SameRow(slack, s, s', m);
    }
    SameHot(s, s');
    SameChain(s, s');
  }

  lemma SameChain(s: Sys, s': Sys)
    requires ChainInv(s) && s'.chain == s.chain && s'.saved == s.saved && s'.spacing == s.spacing
    requires forall m :: m in s.msgs ==> m in s'.msgs && s'.msgs[m] == s.msgs[m]
    ensures ChainInv(s')
  {
    forall m | m in s'.chain.orders ensures OrderOk(s', m) { assert OrderOk(s, m); }
    forall k | k in s'.chain.leaves ensures LeaveOk(s', k) && k.memo in s.msgs { assert LeaveOk(s, k); }
    forall k | k in s'.chain.arrivals ensures ArrivalOk(s', k) { assert ArrivalOk(s, k); }
  }

  lemma KeepsQuiet(slack: nat, s: Sys, p: Step, s': Sys)
    requires Inv(slack, s) && Next(slack, s, p, s') && (p.Drop? || p.Tick? || p.CheckSync?)
    ensures Inv(slack, s')
  {
    hide ChainInv, HotInv, RowInv, Ordered, Startable;
    SameView(slack, s, s');
  }

  lemma KeepsSave(slack: nat, s: Sys, p: Step, s': Sys)
    requires Inv(slack, s) && Next(slack, s, p, s') && p.Save?
    ensures Inv(slack, s')
  {
    hide ChainInv, HotInv, RowInv, Ordered, PickInv;
    if p.memo in s.t.internals {
      SameView(slack, s, s');
      assert PickInv(s') by { NoPicks(s, s'); }
    } else {
      SameChain(s, s');
      SameHot(s, s');
      SaveKeepsRows(slack, s, p, s');
      SaveKeepsOrder(slack, s, p, s');
    }
  }

  lemma NoPicks(s: Sys, s': Sys)
    requires s' == s.(picked := {}, pickedTon := {})
    ensures PickInv(s')
  {}

  lemma SaveKeepsRows(slack: nat, s: Sys, p: Step, s': Sys)
    requires Inv(slack, s) && Next(slack, s, p, s') && p.Save? && p.memo !in s.t.internals
    ensures RowsInv(slack, s')
  {
    hide Ordered, PickInv, HotInv, RowInv, ChainInv, SeenLeaves, SentSeen, FailSeen, Dead;
    forall m | m in s'.t.internals ensures RowInv(slack, s', m) {
      if m == p.memo {
        NewRow(slack, s, p, s');
      } else {
        assert m in s.msgs;
        SameChainView(s, s', m);
        SameRow(slack, s, s', m);
      }
    }
  }

  lemma NewRow(slack: nat, s: Sys, p: Step, s': Sys)
    requires ChainInv(s) && p.Save? && p.memo !in s.msgs && p.ttl <= p.expiredAt + slack
    requires s'.chain == s.chain && s'.msgs == s.msgs[p.memo := Message(p.task.lt, s.now, p.ttl, p.ton)]
    requires p.memo in s'.t.internals
    requires s'.t.internals[p.memo] == IntRow(p.task.deposit, p.task.lt, p.expiredAt, None, None, 0, false)
    ensures RowInv(slack, s', p.memo)
  {
    hide Total, MaxOf, SeenLeaves, SentSeen, FailSeen, Dead, ChainInv;
    UnknownMemo(s, p.memo);
    NothingSeen(s', p.memo);
    TotalNone();
    assert SeenLeaves(s', p.memo).Keys == {};
  }

  lemma UnknownMemo(s: Sys, m: Uuid)
    requires ChainInv(s) && m !in s.msgs
    ensures m !in s.chain.orders && forall k :: k in s.chain.leaves ==> k.memo != m
  {
    forall k | k in s.chain.leaves ensures k.memo != m { assert LeaveOk(s, k); }
    forall o | o in s.chain.orders ensures o != m { assert OrderOk(s, o); }
  }

  lemma NothingSeen(s: Sys, m: Uuid)
    requires m !in s.chain.orders && forall k :: k in s.chain.leaves ==> k.memo != m
    ensures SeenLeaves(s, m) == map[] && !SentSeen(s, m) && !FailSeen(s, m)
  {}

  lemma SaveKeepsOrder(slack: nat, s: Sys, p: Step, s': Sys)
    requires Inv(slack, s) && Next(slack, s, p, s') && p.Save? && p.memo !in s.t.internals
    ensures Ordered(s'.t.internals) && PickInv(s')
  {
    hide ChainInv, RowInv, HotInv, Ordered, Startable;
    OrderedWith(s.t.internals, p.task, p.expiredAt, p.memo);
    forall t | t in s'.picked + s'.pickedTon ensures Startable(s'.t.internals, t) {
      assert Startable(s.t.internals, t) && t.deposit != p.task.deposit;
      StillStartable(s.t.internals, p.task, p.expiredAt, p.memo, t);
    }
  }

  /** A withdrawal started when all live ones of its deposit have finished keeps the order. */
  lemma OrderedWith(rows: map<Uuid, IntRow>, t: InternalTask, expiredAt: Time, memo: Uuid)
    requires Ordered(rows) && Startable(rows, t) && memo !in rows
    ensures Ordered(rows[memo := IntRow(t.deposit, t.lt, expiredAt, None, None, 0, false)])
  {
    forall m | m in rows && !rows[m].failed && rows[m].deposit == t.deposit
      ensures rows[m].finishLt.Some? && rows[m].sinceLt < t.lt {
      assert Live(rows, m, t.deposit);
    }
  }

  lemma StillStartable(rows: map<Uuid, IntRow>, t: InternalTask, expiredAt: Time, memo: Uuid, other: InternalTask)
    requires Startable(rows, other) && memo !in rows && other.deposit != t.deposit
    ensures Startable(rows[memo := IntRow(t.deposit, t.lt, expiredAt, None, None, 0, false)], other)
  {
    var after := rows[memo := IntRow(t.deposit, t.lt, expiredAt, None, None, 0, false)];
    forall m | Live(after, m, other.deposit) ensures after[m].finishLt.Some? && after[m].sinceLt < other.lt {
      assert Live(rows, m, other.deposit);
    }
  }

  // ---- The chain ----

  lemma KeepsMine(slack: nat, s: Sys, p: Step, s': Sys)
    requires Inv(slack, s) && Next(slack, s, p, s') && p.Mine?
    ensures Inv(slack, s')
  {
    hide RowInv, HotInv, Ordered, PickInv, ChainInv, Mined;
    MineKeepsChain(s, p, s');
    forall m | m in s'.t.internals ensures RowInv(slack, s', m) { MineKeepsRow(slack, s, p, s', m); }
    MineKeepsHot(s, p, s');
    assert Ordered(s'.t.internals);
    assert CheckInv(s') by { assert CheckInv(s); LongerChain(s, p, s'); }
    assert PickInv(s') by { assert PickInv(s); SamePicks(s, s'); }
  }

  lemma LongerChain(s: Sys, p: Step, s': Sys)
    requires CheckInv(s) && p.Mine? && Mined(s, p.gen, p.orders, p.leaves, p.arrivals, p.forged, s'.chain)
      && s' == s.(chain := s'.chain)
    ensures CheckInv(s')
  {}

  lemma SamePicks(s: Sys, s': Sys)
    requires PickInv(s) && s' == s.(chain := s'.chain)
    ensures PickInv(s')
  {}

  lemma MineKeepsChain(s: Sys, p: Step, s': Sys)
    requires ChainInv(s) && p.Mine? && Mined(s, p.gen, p.orders, p.leaves, p.arrivals, p.forged, s'.chain)
      && s' == s.(chain := s'.chain)
    ensures ChainInv(s')
  {
    hide OrderOk, LeaveOk, ArrivalOk, OrderAllowed, LeaveAllowed, ArrivalAllowed;
    Spaced(s.chain.gens, p.gen, s.spacing * SECOND);
    forall m | m in s'.chain.orders ensures OrderOk(s', m) { MineKeepsOrder(s, p, s', m); }
    forall k | k in s'.chain.leaves ensures LeaveOk(s', k) && k.memo in s.msgs { MineKeepsLeave(s, p, s', k); }
    forall k | k in s'.chain.arrivals ensures ArrivalOk(s', k) { MineKeepsArrival(s, p, s', k); }
    forall k, l | k in s'.chain.leaves && l in s'.chain.leaves && k.memo == l.memo && !s'.msgs[k.memo].ton
      ensures k == l {
      MineOneLeave(s, p, s', k, l);
    }
    forall k, l | k in s'.chain.leaves && l in s'.chain.leaves && k.memo == l.memo
      && s'.chain.leaves[k].block < s'.chain.leaves[l].block
      ensures k.lt < l.lt
    {
      MineOrdersLeaves(s, p, s', k, l);
    }
  }

  lemma Spaced(gens: seq<Time>, gen: Time, gap: Time)
    requires gap >= 0 && forall i, j :: 0 <= i < j < |gens| ==> gens[i] + gap <= gens[j]
    requires |gens| > 0 ==> gens[|gens| - 1] + gap <= gen
    ensures var after := gens + [gen]; forall i, j :: 0 <= i < j < |after| ==> after[i] + gap <= after[j]
  {}

  lemma MineOrdersLeaves(s: Sys, p: Step, s': Sys, k: Departure, l: Departure)
    requires ChainInv(s) && p.Mine? && Mined(s, p.gen, p.orders, p.leaves, p.arrivals, p.forged, s'.chain)
      && s' == s.(chain := s'.chain)
    requires k in s'.chain.leaves && l in s'.chain.leaves && k.memo == l.memo
      && s'.chain.leaves[k].block < s'.chain.leaves[l].block
    ensures k.lt < l.lt
  {
    hide OrderOk, ArrivalOk, OrderAllowed, ArrivalAllowed;
    if k in p.leaves { assert LeaveAllowed(s, p.gen, p.orders, p.leaves, k); } else { assert LeaveOk(s, k); }
    if l in p.leaves { assert LeaveAllowed(s, p.gen, p.orders, p.leaves, l); } else { assert LeaveOk(s, l); }
  }

  lemma MineKeepsOrder(s: Sys, p: Step, s': Sys, m: Uuid)
    requires p.Mine? && Mined(s, p.gen, p.orders, p.leaves, p.arrivals, p.forged, s'.chain)
      && s' == s.(chain := s'.chain)
    requires m in s'.chain.orders && (m in s.chain.orders ==> OrderOk(s, m))
    ensures OrderOk(s', m)
  {
    if m in p.orders { assert OrderAllowed(s, p.gen, m, p.orders[m]); }
  }

  lemma MineKeepsLeave(s: Sys, p: Step, s': Sys, k: Departure)
    requires ChainInv(s) && p.Mine? && Mined(s, p.gen, p.orders, p.leaves, p.arrivals, p.forged, s'.chain)
      && s' == s.(chain := s'.chain)
    requires k in s'.chain.leaves
    ensures LeaveOk(s', k) && k.memo in s.msgs
  {
    hide ArrivalOk, ArrivalAllowed;
    if k in p.leaves { assert LeaveAllowed(s, p.gen, p.orders, p.leaves, k); } else { assert LeaveOk(s, k); }
    forall m | m in p.orders ensures m !in s.chain.orders { assert OrderAllowed(s, p.gen, m, p.orders[m]); }
    if k.memo in s.chain.orders { assert OrderOk(s, k.memo); }
  }

  lemma MineKeepsArrival(s: Sys, p: Step, s': Sys, k: Departure)
    requires ChainInv(s) && p.Mine? && Mined(s, p.gen, p.orders, p.leaves, p.arrivals, p.forged, s'.chain)
      && s' == s.(chain := s'.chain)
    requires k in s'.chain.arrivals
    ensures ArrivalOk(s', k)
  {
    hide OrderOk, OrderAllowed;
    if k in p.arrivals { assert ArrivalAllowed(s, p.leaves, k, p.arrivals[k]); } else { assert ArrivalOk(s, k); }
    if k in p.leaves { assert LeaveAllowed(s, p.gen, p.orders, p.leaves, k); } else { assert LeaveOk(s, k); }
  }

  lemma MineOneLeave(s: Sys, p: Step, s': Sys, k: Departure, l: Departure)
    requires ChainInv(s) && p.Mine? && Mined(s, p.gen, p.orders, p.leaves, p.arrivals, p.forged, s'.chain)
      && s' == s.(chain := s'.chain)
    requires k in s'.chain.leaves && l in s'.chain.leaves && k.memo == l.memo && k.memo in s.msgs && !s.msgs[k.memo].ton
    ensures k == l
  {
    hide OrderOk, LeaveOk, ArrivalOk, OrderAllowed, ArrivalAllowed;
    if k in p.leaves { assert LeaveAllowed(s, p.gen, p.orders, p.leaves, k); }
    if l in p.leaves { assert LeaveAllowed(s, p.gen, p.orders, p.leaves, l); }
  }

  /** Blocks not yet saved change nothing in the rows' view of the chain. */
  lemma MineKeepsRow(slack: nat, s: Sys, p: Step, s': Sys, m: Uuid)
    requires ChainInv(s) && p.Mine? && Mined(s, p.gen, p.orders, p.leaves, p.arrivals, p.forged, s'.chain)
      && s' == s.(chain := s'.chain)
    requires m in s.t.internals && RowInv(slack, s, m)
    ensures RowInv(slack, s', m)
  {
    hide RowInv, Dead, ChainInv, SeenLeaves, SentSeen, FailSeen, Mined;
    MineSameView(s, p, s', m);
    if Dead(s, m) { MineKeepsDead(s, p, s', m); }
    KnownRow(slack, s, m);
    SameRow(slack, s, s', m);
  }

  lemma KnownRow(slack: nat, s: Sys, m: Uuid)
    requires m in s.t.internals && RowInv(slack, s, m)
    ensures m in s.msgs
  {}

  /** Below `saved`, the longer chain is the old one. */
  lemma MineOldPart(s: Sys, p: Step, s': Sys)
    requires ChainInv(s) && p.Mine? && Mined(s, p.gen, p.orders, p.leaves, p.arrivals, p.forged, s'.chain)
      && s' == s.(chain := s'.chain)
    ensures forall m :: m in s.chain.orders ==> m in s'.chain.orders && s'.chain.orders[m] == s.chain.orders[m]
    ensures forall k :: k in s.chain.leaves ==> k in s'.chain.leaves && s'.chain.leaves[k] == s.chain.leaves[k]
    ensures forall m :: m in s'.chain.orders && s'.chain.orders[m].block < s.saved ==> m in s.chain.orders
    ensures forall k :: k in s'.chain.leaves && s'.chain.leaves[k].block < s.saved ==> k in s.chain.leaves
  {
    hide OrderOk, LeaveOk, ArrivalOk, ArrivalAllowed;
    forall k | k in p.leaves ensures k !in s.chain.leaves && p.leaves[k].block >= s.saved {
      assert LeaveAllowed(s, p.gen, p.orders, p.leaves, k);
    }
    forall n | n in p.orders ensures n !in s.chain.orders { assert OrderAllowed(s, p.gen, n, p.orders[n]); }
  }

  lemma MineSameView(s: Sys, p: Step, s': Sys, m: Uuid)
    requires ChainInv(s) && p.Mine? && Mined(s, p.gen, p.orders, p.leaves, p.arrivals, p.forged, s'.chain)
      && s' == s.(chain := s'.chain)
    ensures SeenLeaves(s', m) == SeenLeaves(s, m) && SentSeen(s', m) == SentSeen(s, m)
      && FailSeen(s', m) == FailSeen(s, m)
  {
    hide ChainInv, Mined;
    MineOldPart(s, p, s');
    assert SentSeen(s', m) == SentSeen(s, m) by {
      forall k: Departure ensures (TonLeave(s', k) && s'.chain.leaves[k].block < s.saved) <==>
        (TonLeave(s, k) && s.chain.leaves[k].block < s.saved) {}
    }
    assert FailSeen(s', m) == FailSeen(s, m);
    assert SeenLeaves(s', m) == SeenLeaves(s, m);
  }

  lemma MineKeepsDead(s: Sys, p: Step, s': Sys, m: Uuid)
    requires ChainInv(s) && p.Mine? && Mined(s, p.gen, p.orders, p.leaves, p.arrivals, p.forged, s'.chain)
      && s' == s.(chain := s'.chain)
    requires Dead(s, m)
    ensures Dead(s', m)
  {
    var n := |s.chain.gens|;
    assert s.chain.gens[s.saved - 1] + s.spacing * SECOND <= p.gen by {
      if s.saved < n { assert s.chain.gens[s.saved - 1] + s.spacing * SECOND <= s.chain.gens[n - 1]; }
    }
    forall o | o in p.orders ensures o != m { assert OrderAllowed(s, p.gen, o, p.orders[o]); }
    forall k | k in p.leaves ensures k.memo != m { assert LeaveAllowed(s, p.gen, p.orders, p.leaves, k); }
  }

  lemma MineKeepsHot(s: Sys, p: Step, s': Sys)
    requires ChainInv(s) && HotInv(s) && p.Mine? && Mined(s, p.gen, p.orders, p.leaves, p.arrivals, p.forged, s'.chain)
      && s' == s.(chain := s'.chain)
    ensures HotInv(s')
  {
    forall k | k in p.leaves ensures k !in s.chain.leaves { assert LeaveAllowed(s, p.gen, p.orders, p.leaves, k); }
    forall k | k in p.arrivals ensures k !in s.chain.arrivals { assert ArrivalAllowed(s, p.leaves, k, p.arrivals[k]); }
    forall key | key in s'.t.intIncomes ensures exists k :: SeenArrival(s', k, key) {
      var k :| SeenArrival(s, k, key);
      assert SeenArrival(s', k, key);
    }
    forall k | k in s'.chain.arrivals && s'.chain.arrivals[k].block < s'.saved
      ensures SeenArrival(s', k, IncomeKey(k.memo, s'.chain.arrivals[k].lt))
    {
      assert SeenArrival(s, k, IncomeKey(k.memo, s.chain.arrivals[k].lt));
    }
  }

  // ---- Expiry ----

  lemma StaleIsDead(slack: nat, s: Sys, cutoff: Time, m: Uuid)
    requires ChainInv(s) && SafeCutoff(slack, s, cutoff)
    requires m in s.t.internals && RowInv(slack, s, m) && StaleInternal(s.t.internals[m], cutoff)
    ensures Dead(s, m)
  {
    hide Total;
    assert s.msgs[m].ttl < s.chain.gens[s.saved - 1] + s.spacing * SECOND;
    forall o | o in s.chain.orders ensures o != m { assert OrderOk(s, o); }
    forall k | k in s.chain.leaves ensures k.memo != m {
      assert LeaveOk(s, k);
      assert TonLeave(s, k) <==> s.msgs[k.memo].ton;
    }
  }

  lemma KeepsExpire(slack: nat, s: Sys, p: Step, s': Sys)
    requires Inv(slack, s) && Next(slack, s, p, s') && p.Expire? && SafeCutoff(slack, s, p.cutoff)
    ensures Inv(slack, s')
  {
    hide ChainInv, HotInv, RowInv, Ordered, PickInv, StaleInternal;
    forall m | m in s'.t.internals ensures RowInv(slack, s', m) { ExpireKeepsRow(slack, s, p, s', m); }
    AdvancedKeeps(s, s');
    SameChain(s, s');
    SameHot(s, s');
  }

  lemma ExpireKeepsRow(slack: nat, s: Sys, p: Step, s': Sys, m: Uuid)
    requires ChainInv(s) && Next(slack, s, p, s') && p.Expire? && SafeCutoff(slack, s, p.cutoff)
    requires m in s.t.internals && RowInv(slack, s, m)
    ensures RowInv(slack, s', m)
  {
    hide RowInv, Dead, ChainInv, SeenLeaves, SentSeen, FailSeen, StaleInternal;
    if StaleInternal(s.t.internals[m], p.cutoff) { StaleIsDead(slack, s, p.cutoff, m); }
    KnownRow(slack, s, m);
    SameChainView(s, s', m);
    SameRow(slack, s, s', m);
  }

  // ---- Passing blocks over ----

  /** Nothing of ours happens in a block. */
  predicate Idle(s: Sys, n: nat) {
    && (forall m :: m in s.chain.orders ==> s.chain.orders[m].block != n)
    && (forall k :: k in s.chain.leaves ==> s.chain.leaves[k].block != n)
    && forall k :: k in s.chain.arrivals ==> s.chain.arrivals[k].block != n
  }

  /** The state as it would be with the blocks before `at` passed over. */
  function Passed(s: Sys, at: nat): Sys { s.(saved := at, gaps := s.gaps + Between(s.saved, at)) }

  /** Nothing of ours changes sides when idle blocks are passed over. */
  predicate NoneBetween(s: Sys, at: nat) {
    && (forall m :: m in s.chain.orders ==> !(s.saved <= s.chain.orders[m].block < at))
    && (forall k :: k in s.chain.leaves ==> !(s.saved <= s.chain.leaves[k].block < at))
    && forall k :: k in s.chain.arrivals ==> !(s.saved <= s.chain.arrivals[k].block < at)
  }

  lemma IdleBetween(s: Sys, at: nat)
    requires forall n :: s.saved <= n < at ==> Idle(s, n)
    ensures NoneBetween(s, at)
  {
    forall m | m in s.chain.orders ensures !(s.saved <= s.chain.orders[m].block < at) {
      assert s.saved <= s.chain.orders[m].block < at ==> Idle(s, s.chain.orders[m].block);
    }
    forall k | k in s.chain.leaves ensures !(s.saved <= s.chain.leaves[k].block < at) {
      assert s.saved <= s.chain.leaves[k].block < at ==> Idle(s, s.chain.leaves[k].block);
    }
    forall k | k in s.chain.arrivals ensures !(s.saved <= s.chain.arrivals[k].block < at) {
      assert s.saved <= s.chain.arrivals[k].block < at ==> Idle(s, s.chain.arrivals[k].block);
    }
  }

  lemma PassedView(s: Sys, at: nat, m: Uuid)
    requires s.saved <= at && NoneBetween(s, at)
    ensures var s' := Passed(s, at);
      && SeenLeaves(s', m) == SeenLeaves(s, m) && (SentSeen(s', m) <==> SentSeen(s, m))
      && (FailSeen(s', m) <==> FailSeen(s, m))
  {
    hide SeenLeaves;
    PassedLeaves(s, at, m);
    forall k: Departure ensures TonLeave(Passed(s, at), k) <==> TonLeave(s, k) {}
  }

  lemma PassedLeaves(s: Sys, at: nat, m: Uuid)
    requires s.saved <= at && NoneBetween(s, at)
    ensures SeenLeaves(Passed(s, at), m) == SeenLeaves(s, m)
  {
    hide SeenLeaves;
    var was, now := SeenLeaves(s, m), SeenLeaves(Passed(s, at), m);
    forall lt ensures (lt in now <==> lt in was) && (lt in was ==> now[lt] == was[lt]) {
      SeenLeaf(s, m, lt);
      SeenLeaf(Passed(s, at), m, lt);
    }
  }

  lemma PassedDead(s: Sys, at: nat, m: Uuid)
    requires ChainInv(s) && s.saved <= at <= |s.chain.gens| && Dead(s, m)
    ensures Dead(Passed(s, at), m)
  {
    hide OrderOk, LeaveOk, ArrivalOk;
    if s.saved < at { assert s.chain.gens[s.saved - 1] + s.spacing * SECOND <= s.chain.gens[at - 1]; }
  }

  /** Blocks in which nothing of ours happens may be passed over. */
  lemma PassKeepsInv(slack: nat, s: Sys, at: nat)
    requires Inv(slack, s) && s.saved <= at <= |s.chain.gens| && forall n :: s.saved <= n < at ==> Idle(s, n)
    ensures Inv(slack, Passed(s, at))
  {
    hide ChainInv, HotInv, RowInv, Ordered, PickInv, CheckInv, Idle, Passed, NoneBetween, SeenLeaves, SentSeen,
         FailSeen, Dead;
    var s' := Passed(s, at);
    IdleBetween(s, at);
    PassedFields(s, at);
    forall m | m in s.t.internals ensures RowInv(slack, s', m) {
      PassedView(s, at, m);
      assert RowInv(slack, s, m);
      if Dead(s, m) { PassedDead(s, at, m); }
      PassedRow(slack, s, at, m);
    }
    PassedChain(s, at);
    PassedHot(s, at);
    PassedPicks(s, s');
  }

  lemma PassedFields(s: Sys, at: nat)
    ensures var s' := Passed(s, at);
      && s'.t == s.t && s'.msgs == s.msgs && s'.wallets == s.wallets && s'.chain == s.chain
      && s'.picked == s.picked && s'.pickedTon == s.pickedTon
  {}

  lemma PassedRow(slack: nat, s: Sys, at: nat, m: Uuid)
    requires m in s.t.internals && RowInv(slack, s, m)
    requires var s' := Passed(s, at);
      && SeenLeaves(s', m) == SeenLeaves(s, m) && (SentSeen(s', m) <==> SentSeen(s, m))
      && (FailSeen(s', m) <==> FailSeen(s, m)) && (Dead(s, m) ==> Dead(s', m))
    ensures RowInv(slack, Passed(s, at), m)
  {
    hide SeenLeaves, SentSeen, FailSeen, Dead, Total, MaxOf;
  }

  lemma PassedChain(s: Sys, at: nat)
    requires ChainInv(s) && CheckInv(s) && s.saved <= at <= |s.chain.gens|
    ensures ChainInv(Passed(s, at)) && CheckInv(Passed(s, at))
  {
    var s' := Passed(s, at);
    forall m | m in s'.chain.orders ensures OrderOk(s', m) { assert OrderOk(s, m); }
    forall k | k in s'.chain.leaves ensures LeaveOk(s', k) { assert LeaveOk(s, k); }
    forall k | k in s'.chain.arrivals ensures ArrivalOk(s', k) { assert ArrivalOk(s, k); }
    if 0 < s.saved < at { assert s.chain.gens[s.saved - 1] + s.spacing * SECOND <= s.chain.gens[at - 1]; }
  }

  lemma PassedHot(s: Sys, at: nat)
    requires HotInv(s) && s.saved <= at && NoneBetween(s, at)
    ensures HotInv(Passed(s, at))
  {
    var s' := Passed(s, at);
    forall key | key in s'.t.intIncomes ensures exists k :: SeenArrival(s', k, key) {
      var k :| SeenArrival(s, k, key);
      assert SeenArrival(s', k, key);
    }
    forall k | k in s'.chain.arrivals && s'.chain.arrivals[k].block < s'.saved
      ensures SeenArrival(s', k, IncomeKey(k.memo, s'.chain.arrivals[k].lt))
    {
      assert SeenArrival(s, k, IncomeKey(k.memo, s.chain.arrivals[k].lt));
    }
  }

  lemma PassedPicks(s: Sys, s': Sys)
    requires PickInv(s) && s'.t == s.t && s'.picked == s.picked && s'.pickedTon == s.pickedTon
      && s'.wallets == s.wallets
    ensures PickInv(s')
  {}
}
