/** What holds of the internal withdrawals in every reachable state in which no stranger meddled in a saved block and
  * nothing of ours lies in a gap, and exactly what a stranger's request does. */
module InternalTheorems {
  import opened Base
  import opened Ledger
  import opened BlockEffects
  import opened Runs
  import opened TaskQueries
  import opened Uuids
  import opened InternalRuns
  import opened InternalSafety
  import opened InternalScan

  lemma InitInv(slack: nat, s: Sys)
    requires Init(s)
    ensures Inv(slack, s)
  {}

  /** Nothing of ours is left behind when block `at` is saved, and no stranger meddles in it. */
  predicate PassesOwn(s: Sys, at: nat) {
    OwnBlock(s, at) && forall n :: s.saved <= n < at ==> Idle(s, n)
  }

  lemma OwnBlockPassed(s: Sys, at: nat)
    ensures OwnBlock(Passed(s, at), at) == OwnBlock(s, at)
  {}

  lemma KeepsAnyScan(slack: nat, s: Sys, p: Step, s': Sys)
    requires Inv(slack, s) && Next(slack, s, p, s') && p.Scan? && (s' == s || PassesOwn(s, p.at))
    ensures Inv(slack, s')
  {
    hide Inv, OwnBlock, Reconciled, ApplyBlock, Idle;
    if s' != s {
      PassKeepsInv(slack, s, p.at);
      PassThenScan(slack, s, p, s');
      OwnBlockPassed(s, p.at);
      KeepsScan(slack, Passed(s, p.at), p, s');
    }
  }

  lemma StepKeepsInv(slack: nat, s: Sys, p: Step, s': Sys)
    requires Inv(slack, s) && Next(slack, s, p, s')
    requires p.Expire? ==> SafeCutoff(slack, s, p.cutoff)
    requires p.Scan? ==> s' == s || PassesOwn(s, p.at)
    ensures Inv(slack, s')
  {
    hide Inv, Next, PassesOwn, SafeCutoff;
    match p
    case Save(_, _, _, _, _) => KeepsSave(slack, s, p, s');
    case PickJetton(_, _) => KeepsPick(slack, s, p, s');
    case PickTon(_) => KeepsPick(slack, s, p, s');
    case Mine(_, _, _, _, _) => KeepsMine(slack, s, p, s');
    case Scan(_, _, _) => KeepsAnyScan(slack, s, p, s');
    case Expire(_) => KeepsExpire(slack, s, p, s');
    case _ => KeepsQuiet(slack, s, p, s');
  }

  /** Gaps lie below the greatest saved block, which is on the chain. */
  predicate InPlace(s: Sys) {
    s.saved <= |s.chain.gens| && (forall n :: n in s.gaps ==> n < s.saved) && (s.saved > 0 ==> s.saved - 1 !in s.gaps)
  }

  lemma {:induction false} StaysInPlace(slack: nat, r: InternalRun)
    requires IsRun(slack, r)
    ensures InPlace(r.last)
  {
    hide Next;
    match r
    case Start(_) =>
    case Then(b, p, s) =>
      StaysInPlace(slack, b);
      InPlaceStep(slack, b.last, p, s);
  }

  lemma InPlaceStep(slack: nat, s: Sys, p: Step, s': Sys)
    requires Next(slack, s, p, s') && InPlace(s)
    ensures InPlace(s')
  {
    hide JettonQuery, TonQuery, SaveTask, ExpireInternal, Reconciled, ApplyBlock, OrderAllowed, LeaveAllowed,
         ArrivalAllowed;
  }

  /** Nothing on the chain is taken back, and gaps are not closed. */
  lemma CleanBefore(slack: nat, s: Sys, p: Step, s': Sys)
    requires Next(slack, s, p, s') && InPlace(s)
    ensures Unforged(s') ==> Unforged(s) && (p.Scan? ==> s' == s || OwnBlock(s, p.at))
    ensures Lossless(s') ==> Lossless(s) && (p.Scan? ==> s' == s || forall n :: s.saved <= n < p.at ==> Idle(s, n))
  {
    hide JettonQuery, TonQuery, SaveTask, ApplyBlock, ExpireInternal, Reconciled;
    ChainGrows(slack, s, p, s');
  }

  lemma ChainGrows(slack: nat, s: Sys, p: Step, s': Sys)
    requires Next(slack, s, p, s')
    ensures forall id :: id in s.chain.forged ==> id in s'.chain.forged && s'.chain.forged[id] == s.chain.forged[id]
    ensures forall m :: m in s.chain.orders ==> m in s'.chain.orders && s'.chain.orders[m] == s.chain.orders[m]
    ensures forall k :: k in s.chain.leaves ==> k in s'.chain.leaves && s'.chain.leaves[k] == s.chain.leaves[k]
    ensures forall k :: k in s.chain.arrivals ==> k in s'.chain.arrivals && s'.chain.arrivals[k] == s.chain.arrivals[k]
  {
    hide JettonQuery, TonQuery, SaveTask, ApplyBlock, ExpireInternal, Reconciled;
    if p.Mine? {
      hide OrderAllowed, LeaveAllowed, ArrivalAllowed;
      MinedFresh(s, p, s');
    }
  }

  lemma MinedFresh(s: Sys, p: Step, s': Sys)
    requires p.Mine? && Mined(s, p.gen, p.orders, p.leaves, p.arrivals, p.forged, s'.chain)
    ensures p.orders.Keys !! s.chain.orders.Keys && p.leaves.Keys !! s.chain.leaves.Keys
    ensures p.arrivals.Keys !! s.chain.arrivals.Keys && p.forged.Keys !! s.chain.forged.Keys
  {
    forall m | m in p.orders ensures m !in s.chain.orders { assert OrderAllowed(s, p.gen, m, p.orders[m]); }
    forall k | k in p.leaves ensures k !in s.chain.leaves { assert LeaveAllowed(s, p.gen, p.orders, p.leaves, k); }
    forall k | k in p.arrivals ensures k !in s.chain.arrivals { assert ArrivalAllowed(s, p.leaves, k, p.arrivals[k]); }
  }

  lemma {:induction false} RunKeepsInv(slack: nat, r: InternalRun)
    requires IsRun(slack, r) && ExpiryGuarded(slack, r) && Clean(r.last)
    ensures Inv(slack, r.last)
  {
    hide Inv, Next, Unforged, Lossless, OwnBlock, Idle, SafeCutoff;
    match r
    case Start(s) => InitInv(slack, s);
    case Then(b, p, s) =>
      StaysInPlace(slack, b);
      CleanBefore(slack, b.last, p, s);
      RunKeepsInv(slack, b);
      StepKeepsInv(slack, b.last, p, s);
  }

  /** Single in-flight withdrawal: a deposit never has two, and the one it has is newer than every other live
    * withdrawal. */
  lemma {:induction false} SingleInFlight(slack: nat, r: InternalRun, d: Address, m: Uuid, n: Uuid)
    requires IsRun(slack, r) && ExpiryGuarded(slack, r) && Clean(r.last)
    requires InFlight(r.last.t.internals, m, d) && Live(r.last.t.internals, n, d) && m != n
    ensures r.last.t.internals[n].finishLt.Some?
    ensures r.last.t.internals[n].sinceLt < r.last.t.internals[m].sinceLt
  {
    hide RowsInv, ChainInv, HotInv, PickInv, IsRun, ExpiryGuarded;
    RunKeepsInv(slack, r);
  }

  /** In every reachable state both queries return exactly the deposits that are due, each with its latest income. */
  lemma {:induction false} QueriesReturnTheDue(slack: nat, r: InternalRun, excluded: set<Address>, t: InternalTask)
    requires IsRun(slack, r) && ExpiryGuarded(slack, r) && Clean(r.last)
    ensures var db := DbOf(r.last);
      && (t in JettonQuery(db, excluded) <==>
            && t.deposit in db.wallets.jetton
            && db.wallets.jetton[t.deposit] == JettonWallet(t.subwallet, t.currency, JettonDeposit)
            && (excluded != {} ==>
                  t.subwallet in db.wallets.ton && db.wallets.ton[t.subwallet].address !in excluded)
            && JettonDue(db, t.deposit) && t.lt == MaxOf(IncomeLts(db, t.deposit)).value)
      && (t in TonQuery(db) <==>
            && t.subwallet in db.wallets.ton && db.wallets.ton[t.subwallet] == TonWallet(t.deposit, TonDeposit)
            && TonDue(db, t.deposit) && t.lt == MaxOf(IncomeLts(db, t.deposit)).value && t.currency == Ton)
  {
    hide RowsOk, JettonQuery, TonQuery, JettonDue, TonDue, IncomeLts, Withdrawable, Inv, IsRun, ExpiryGuarded;
    RunKeepsInv(slack, r);
    InvRows(slack, r.last);
    JettonQueryRefines(DbOf(r.last), excluded, t);
    TonQueryRefines(DbOf(r.last), t);
  }

  /** In every reachable state a jetton deposit with income is pending, covered or offered, and only one of these. */
  lemma {:induction false} ReachableTrichotomy(slack: nat, r: InternalRun, d: Address, excluded: set<Address>)
    requires IsRun(slack, r) && ExpiryGuarded(slack, r) && Clean(r.last)
    requires IncomeLts(DbOf(r.last), d) != {} && Withdrawable(r.last.wallets, d, excluded)
    ensures var db := DbOf(r.last);
      var offered := exists t :: t in JettonQuery(db, excluded) && t.deposit == d;
      && (Pending(db.rows, d) || Covered(db, d) || offered)
      && !(Pending(db.rows, d) && Covered(db, d)) && !(Pending(db.rows, d) && offered) && !(Covered(db, d) && offered)
  {
    hide RowsOk, JettonQuery, IncomeLts, Withdrawable, Inv, Covered, Pending, IsRun, ExpiryGuarded;
    RunKeepsInv(slack, r);
    InvRows(slack, r.last);
    PendingCoveredOrDue(DbOf(r.last), d, excluded);
  }

  // ---- Life cycle ----

  /** Sent iff a saved block shows it; finished at the greatest time of its departures; a failed withdrawal moved
    * nothing, and failed by expiry only if it can never move anything. */
  lemma {:induction false} LifeCycle(slack: nat, r: InternalRun, m: Uuid)
    requires IsRun(slack, r) && ExpiryGuarded(slack, r) && Clean(r.last) && m in r.last.t.internals
    ensures var s, w := r.last, r.last.t.internals[m];
      && (w.finishLt.Some? ==> w.sendingLt.Some? && w.finishLt.value >= w.sinceLt)
      && (w.sendingLt.Some? <==> SentSeen(s, m))
      && w.finishLt == MaxOf(SeenLeaves(s, m).Keys)
      && (w.failed ==> SeenLeaves(s, m) == map[])
      && (w.failed <==> FailSeen(s, m) || (w.failed && Dead(s, m)))
  {
    hide HotInv, PickInv, Ordered, Total, MaxOf, IsRun, ExpiryGuarded, SentSeen, FailSeen, Dead;
    RunKeepsInv(slack, r);
    var s := r.last;
    assert RowInv(slack, s, m);
    InvRow(slack, s, m);
    if s.t.internals[m].failed { assert SeenLeaves(s, m).Keys == {}; }
  }

  /** A row that guarded expiry is about to fail is dead ... */
  lemma {:induction false} ExpiryHitsOnlyTheDead(slack: nat, r: InternalRun, cutoff: Time, m: Uuid)
    requires IsRun(slack, r) && ExpiryGuarded(slack, r) && Clean(r.last) && SafeCutoff(slack, r.last, cutoff)
    requires m in r.last.t.internals && StaleInternal(r.last.t.internals[m], cutoff)
    ensures Dead(r.last, m)
  {
    hide HotInv, PickInv, Ordered, IsRun, ExpiryGuarded, Dead, RowInv, ChainInv;
    RunKeepsInv(slack, r);
    StaleIsDead(slack, r.last, cutoff, m);
  }

  /** ... and stays so however the run goes on. */
  lemma {:induction false} DeadForever(slack: nat, r: InternalRun, later: InternalRun, m: Uuid)
    requires IsRun(slack, later) && ExpiryGuarded(slack, later) && Clean(later.last) && Continues(r, later)
      && Dead(r.last, m)
    ensures Dead(later.last, m)
  {
    hide Inv, Dead, Next, Unforged, Lossless, SafeCutoff;
    if later != r {
      StaysInPlace(slack, later.before);
      CleanBefore(slack, later.before.last, later.step, later.last);
      DeadForever(slack, r, later.before, m);
      RunKeepsInv(slack, later.before);
      DeadStep(slack, later.before.last, later.step, later.last, m);
    }
  }

  lemma KeepsChain(slack: nat, s: Sys, at: nat)
    requires Inv(slack, s) && s.saved <= at <= |s.chain.gens|
    ensures ChainInv(Passed(s, at))
  {
    hide RowInv, HotInv, Ordered, PickInv, ChainInv, CheckInv;
    PassedChain(s, at);
  }

  lemma DeadStep(slack: nat, s: Sys, p: Step, s': Sys, m: Uuid)
    requires Inv(slack, s) && Next(slack, s, p, s') && Dead(s, m)
    ensures Dead(s', m)
  {
    hide RowInv, HotInv, Ordered, PickInv, JettonQuery, TonQuery, Reconciled, ApplyBlock, Mined, ExpireInternal;
    match p
    case Mine(_, _, _, _, _) => MineKeepsDead(s, p, s', m);
    case Scan(_, _, _) =>
      if s' != s {
        PassedDead(s, p.at, m);
        PassThenScan(slack, s, p, s');
        KeepsChain(slack, s, p.at);
        StaysDead(Passed(s, p.at), s', m);
      }
    case _ =>
  }

  /** In sync, the code's own cutoff is a safe one as long as messages expire no more than a block later than
    * recorded. */
  lemma SyncedCutoffIsSafe(slack: nat, s: Sys)
    requires InSync(s) && slack <= s.spacing * SECOND
    ensures SafeCutoff(slack, s, s.now - ALLOWABLE_LAG)
  {}

  // ---- Strangers ----

  /** The internal events of an unsaved block are accepted exactly when its strange requests are bearable, if nothing of
    * ours is left behind; without strange requests they always are. */
  lemma {:induction false} ScanAccepted(slack: nat, r: InternalRun, at: nat, e: Events, origin: seq<Origin>)
    requires IsRun(slack, r) && ExpiryGuarded(slack, r) && Clean(r.last)
    requires r.last.saved <= at < |r.last.chain.gens| && forall n :: r.last.saved <= n < at ==> Idle(r.last, n)
    requires Reconciled(r.last, at, e, origin)
    ensures |origin| == |e.intWithdrawals|
    ensures ApplyChanges(r.last.t, InnerChanges(e)).Ok? <==> Bearable(r.last, e, origin)
    ensures OwnBlock(r.last, at) ==> ApplyChanges(r.last.t, InnerChanges(e)).Ok?
  {
    hide Reconciled, Admissible, BlockDone, IsRun, ExpiryGuarded, BearableAt, ApplyChanges, Inv, Idle, OwnBlock;
    var s := Passed(r.last, at);
    RunKeepsInv(slack, r);
    PassKeepsInv(slack, r.last, at);
    SameReconciled(r.last, s, at, e, origin);
    SameLength(s, e, origin);
    InvParts(slack, s);
    AcceptedIff(slack, s, e, origin);
    InnerExact(s.t, e);
    BearablePassed(r.last, at, e, origin);
    if OwnBlock(r.last, at) {
      OwnBlockPassed(r.last, at);
      OwnBlockIsBearable(s, e, origin);
    }
  }

  lemma BearablePassed(s: Sys, at: nat, e: Events, origin: seq<Origin>)
    requires |origin| == |e.intWithdrawals|
    ensures Bearable(Passed(s, at), e, origin) == Bearable(s, e, origin)
  {
    hide Ready;
    forall i | 0 <= i < |origin| ensures BearableAt(Passed(s, at), e, i) == BearableAt(s, e, i) {}
  }

  lemma InvParts(slack: nat, s: Sys)
    requires Inv(slack, s)
    ensures ChainInv(s) && RowsInv(slack, s) && HotInv(s)
  {
    hide ChainInv, RowsInv, HotInv, Ordered, PickInv, CheckInv;
  }

  /** An accepted block, saved with nothing of ours left behind, keeps the invariant if and only if it holds no
    * stranger's request. */
  lemma SurvivesIff(slack: nat, s: Sys, p: Step, s': Sys)
    requires Inv(slack, s) && Next(slack, s, p, s') && p.Scan? && s' != s
    requires forall n :: s.saved <= n < p.at ==> Idle(s, n)
    ensures Inv(slack, s') <==> OwnBlock(s, p.at)
  {
    hide Inv, OwnBlock, Broken, Reconciled, ApplyBlock, Idle;
    var s1 := Passed(s, p.at);
    PassKeepsInv(slack, s, p.at);
    PassThenScan(slack, s, p, s');
    OwnBlockPassed(s, p.at);
    if OwnBlock(s, p.at) {
      KeepsScan(slack, s1, p, s');
    } else {
      var m := ForgeryBreaks(slack, s1, p, s');
      BrokenBreaks(slack, s', m);
    }
  }

  lemma BrokenStays(slack: nat, s: Sys, p: Step, s': Sys, m: Uuid)
    requires Next(slack, s, p, s') && Broken(s, m) && s.saved <= |s.chain.gens|
    requires p.Scan? ==> s' == s || forall n :: s.saved <= n < p.at ==> Idle(s, n)
    ensures Broken(s', m)
  {
    hide JettonQuery, TonQuery, Mined, Reconciled, ApplyBlock, SentSeen, FailSeen, Idle;
    match p
    case Mine(_, _, _, _, _) => BrokenMine(s, p, s', m);
    case Scan(_, _, _) =>
      if s' != s {
        IdleBetween(s, p.at);
        PassedView(s, p.at, m);
        PassThenScan(slack, s, p, s');
        BrokenScan(slack, Passed(s, p.at), p, s', m);
      }
    case _ => BrokenView(s, s', m);
  }

  lemma BrokenView(s: Sys, s': Sys, m: Uuid)
    requires Broken(s, m) && s'.chain == s.chain && s'.saved == s.saved
    requires m in s'.t.internals && s'.t.internals[m].failed
    requires m in s.msgs ==> m in s'.msgs && s'.msgs[m] == s.msgs[m]
    ensures Broken(s', m)
  {
    if k :| TonLeave(s, k) && k.memo == m && s.chain.leaves[k].block < s.saved { assert TonLeave(s', k); }
  }

  lemma BrokenMine(s: Sys, p: Step, s': Sys, m: Uuid)
    requires Broken(s, m) && s.saved <= |s.chain.gens|
    requires p.Mine? && Mined(s, p.gen, p.orders, p.leaves, p.arrivals, p.forged, s'.chain)
      && s' == s.(chain := s'.chain)
    ensures Broken(s', m)
  {
    hide ArrivalAllowed;
    forall k | k in p.leaves ensures k !in s.chain.leaves && p.leaves[k].block >= s.saved {
      assert LeaveAllowed(s, p.gen, p.orders, p.leaves, k);
    }
    forall n | n in p.orders ensures n !in s.chain.orders { assert OrderAllowed(s, p.gen, n, p.orders[n]); }
    if k :| TonLeave(s, k) && k.memo == m && s.chain.leaves[k].block < s.saved { assert TonLeave(s', k); }
  }

  lemma BrokenScan(slack: nat, s: Sys, p: Step, s': Sys, m: Uuid)
    requires Next(slack, s, p, s') && p.Scan? && p.at == s.saved && s'.saved == s.saved + 1 && Broken(s, m)
    ensures Broken(s', m)
  {
    hide Reconciled, ReceivedBy, ApplyBlock, GainSum, LastGain, LastSent, DistinctIncomes, AllReceivable, AllSendable,
         FailuresLast;
    var e := p.block.events;
    BlockEffect(s.t, p.block);
    SentAfter(s, e, p.origin, s', m);
    forall k | k in s.chain.leaves && k.memo == m && s.chain.leaves[k].block < s'.saved ensures s.chain.leaves[k].ok {
      if s.chain.leaves[k].block == s.saved { FailedGetsNothing(s, e, p.origin, k); }
    }
  }

  /** An accepted block touches no row that has failed. */
  lemma FailedGetsNothing(s: Sys, e: Events, origin: seq<Origin>, k: Departure)
    requires Reconciled(s, s.saved, e, origin) && Admissible(s.t, e) && k.memo in s.t.internals
    requires k in s.chain.leaves && s.chain.leaves[k].block == s.saved
    ensures !s.t.internals[k.memo].failed
  {
    hide Reconciled, DistinctIncomes, AllReceivable, AllSendable, FailuresLast, SendsIn;
    var j := OwnEventAt(s, e, origin, k);
    assert Ready(s.t.internals, e.sendings, e.intWithdrawals[j]);
  }

  /** Once a stranger's request was saved, some row is broken for good. */
  lemma {:induction false} ForgeryIsForGood(slack: nat, r: InternalRun) returns (m: Uuid)
    requires IsRun(slack, r) && ExpiryGuarded(slack, r) && Lossless(r.last) && !Unforged(r.last)
    ensures Broken(r.last, m)
  {
    hide Inv, Broken, SafeCutoff, Lossless, OwnBlock, Idle;
    match r
    case Then(b, p, s) =>
      StaysInPlace(slack, b);
      CleanBefore(slack, b.last, p, s);
      if Unforged(b.last) {
        RunKeepsInv(slack, b);
        ForgedHere(slack, b.last, p, s);
        m := ForgeryBreaksAt(slack, b.last, p, s);
      } else {
        m := ForgeryIsForGood(slack, b);
        BrokenStays(slack, b.last, p, s, m);
      }
  }

  lemma ForgeryBreaksAt(slack: nat, s: Sys, p: Step, s': Sys) returns (m: Uuid)
    requires Inv(slack, s) && Next(slack, s, p, s') && p.Scan? && s' != s && !OwnBlock(s, p.at)
    requires forall n :: s.saved <= n < p.at ==> Idle(s, n)
    ensures Broken(s', m)
  {
    hide Inv, OwnBlock, Broken, Reconciled, ApplyBlock, Idle;
    PassKeepsInv(slack, s, p.at);
    PassThenScan(slack, s, p, s');
    OwnBlockPassed(s, p.at);
    m := ForgeryBreaks(slack, Passed(s, p.at), p, s');
  }

  lemma ForgedHere(slack: nat, s: Sys, p: Step, s': Sys)
    requires Next(slack, s, p, s') && Unforged(s) && !Unforged(s') && s.saved <= |s.chain.gens|
    ensures p.Scan? && s' != s && !OwnBlock(s, p.at)
  {
    hide JettonQuery, TonQuery, SaveTask, ApplyBlock, ExpireInternal, Reconciled;
  }

  /** Over whole runs in which nothing of ours is left behind: the invariant behind all results above holds if and only
    * if no saved block holds a stranger's request. */
  lemma {:induction false} InvariantIffUnforged(slack: nat, r: InternalRun)
    requires IsRun(slack, r) && ExpiryGuarded(slack, r) && Lossless(r.last)
    ensures Inv(slack, r.last) <==> Unforged(r.last)
  {
    hide IsRun, ExpiryGuarded, Inv, Unforged, Lossless, Broken;
    if Unforged(r.last) {
      RunKeepsInv(slack, r);
    } else {
      var m := ForgeryIsForGood(slack, r);
      BrokenBreaks(slack, r.last, m);
    }
  }

  // ---- The two-sided ledger ----

  /** What the hot wallet has recorded under a memo, by logical time. */
  ghost function HotAmounts(t: Tables, m: Uuid): map<nat, int> {
    map k | k in t.intIncomes && k.memo == m :: k.lt := t.intIncomes[k].amount
  }

  /** Everything that left the deposit under a memo in saved blocks has arrived in saved blocks. */
  ghost predicate AllArrived(s: Sys, m: Uuid) {
    forall lt :: lt in SeenLeaves(s, m) ==>
      Departure(m, lt) in s.chain.arrivals && s.chain.arrivals[Departure(m, lt)].block < s.saved
  }

  /** Replays included, the hot side never shows more than left the deposit, and exactly that once all has arrived. */
  lemma {:induction false} TwoSidedLedger(slack: nat, r: InternalRun, m: Uuid)
    requires IsRun(slack, r) && ExpiryGuarded(slack, r) && Clean(r.last) && m in r.last.t.internals
    ensures var hot, amount := Total(HotAmounts(r.last.t, m)), r.last.t.internals[m].amount;
      0 <= hot <= amount && (AllArrived(r.last, m) ==> hot == amount)
  {
    hide Ordered, PickInv, Total, HotAmounts, SeenLeaves, AllArrived, ChainInv, HotInv, MaxOf, IsRun,
         ExpiryGuarded;
    RunKeepsInv(slack, r);
    var s := r.last;
    assert RowInv(slack, s, m);
    if s.msgs[m].ton { TonLedger(s, m); } else { JettonLedger(s, m); }
  }

  lemma HotAt(s: Sys, m: Uuid, lt: nat)
    ensures lt in HotAmounts(s.t, m) <==> IncomeKey(m, lt) in s.t.intIncomes
    ensures lt in HotAmounts(s.t, m) ==> HotAmounts(s.t, m)[lt] == s.t.intIncomes[IncomeKey(m, lt)].amount
  {
    if IncomeKey(m, lt) in s.t.intIncomes { assert IncomeKey(m, lt).lt in HotAmounts(s.t, m); }
  }

  /** A recorded income is an arrival of something that left. */
  lemma HotHasLeave(s: Sys, m: Uuid, lt: nat) returns (k: Departure)
    requires ChainInv(s) && HotInv(s) && lt in HotAmounts(s.t, m)
    ensures SeenArrival(s, k, IncomeKey(m, lt)) && k.memo == m
    ensures k.lt in SeenLeaves(s, m) && SeenLeaves(s, m)[k.lt] == HotAmounts(s.t, m)[lt]
    ensures k.memo in s.msgs && (s.msgs[m].ton ==> k.lt == lt)
  {
    hide HotAmounts, SeenLeaves, OrderOk, LeaveOk;
    HotAt(s, m, lt);
    k :| SeenArrival(s, k, IncomeKey(m, lt));
    assert ArrivalOk(s, k);
    assert k == Departure(m, k.lt);
    SeenLeaf(s, m, k.lt);
  }

  lemma NonNegative(s: Sys, m: Uuid)
    ensures forall lt :: lt in SeenLeaves(s, m) ==> SeenLeaves(s, m)[lt] >= 0
  {
    hide SeenLeaves;
    forall lt | lt in SeenLeaves(s, m) ensures SeenLeaves(s, m)[lt] >= 0 { SeenLeaf(s, m, lt); }
  }

  lemma TonLedger(s: Sys, m: Uuid)
    requires ChainInv(s) && HotInv(s) && m in s.msgs && s.msgs[m].ton
    ensures 0 <= Total(HotAmounts(s.t, m)) <= Total(SeenLeaves(s, m))
    ensures AllArrived(s, m) ==> Total(HotAmounts(s.t, m)) == Total(SeenLeaves(s, m))
  {
    hide HotAmounts, SeenLeaves, ChainInv, HotInv, Total;
    var hot, left := HotAmounts(s.t, m), SeenLeaves(s, m);
    forall lt | lt in hot ensures lt in left && hot[lt] == left[lt] { var k := HotHasLeave(s, m, lt); }
    NonNegative(s, m);
    TotalPart(left, hot);
    if AllArrived(s, m) {
      forall lt | lt in left ensures lt in hot { ArrivedIsHot(s, m, lt); }
      assert hot.Keys == left.Keys;
      assert hot == left;
    }
  }

  lemma ArrivedIsHot(s: Sys, m: Uuid, lt: nat)
    requires ChainInv(s) && HotInv(s) && AllArrived(s, m) && lt in SeenLeaves(s, m)
    ensures var k := Departure(m, lt);
      k in s.chain.arrivals && s.chain.arrivals[k].lt in HotAmounts(s.t, m) && m in s.msgs
        && (s.msgs[m].ton ==> s.chain.arrivals[k].lt == lt)
  {
    hide HotAmounts, SeenLeaves, OrderOk, LeaveOk;
    var k := Departure(m, lt);
    assert ArrivalOk(s, k);
    assert SeenArrival(s, k, IncomeKey(m, s.chain.arrivals[k].lt));
    HotAt(s, m, s.chain.arrivals[k].lt);
  }

  lemma {:induction false} OneEntry(f: map<nat, int>, k: nat)
    requires k in f && forall l :: l in f ==> l == k
    ensures Total(f) == f[k]
  {
    hide Total;
    TotalTake(f, k);
    TotalNone();
    assert f - {k} == map[];
  }

  lemma JettonLedger(s: Sys, m: Uuid)
    requires ChainInv(s) && HotInv(s) && m in s.msgs && !s.msgs[m].ton
    ensures 0 <= Total(HotAmounts(s.t, m)) <= Total(SeenLeaves(s, m))
    ensures AllArrived(s, m) ==> Total(HotAmounts(s.t, m)) == Total(SeenLeaves(s, m))
  {
    hide HotAmounts, SeenLeaves, ChainInv, HotInv, Total, AllArrived;
    var hot, left := HotAmounts(s.t, m), SeenLeaves(s, m);
    NonNegative(s, m);
    TotalNone();
    if hot == map[] {
      TotalPart(left, hot);
      if AllArrived(s, m) && left != map[] { var lt :| lt in left; ArrivedIsHot(s, m, lt); assert false; }
    } else {
      var lt :| lt in hot;
      var k := HotHasLeave(s, m, lt);
      forall x | x in left ensures x == k.lt { OnlyLeave(s, m, x, k); }
      forall x | x in hot ensures x == lt { var l := HotHasLeave(s, m, x); OnlyLeave(s, m, l.lt, k); }
      OneEntry(left, k.lt);
      OneEntry(hot, lt);
    }
  }

  lemma OnlyLeave(s: Sys, m: Uuid, x: nat, k: Departure)
    requires ChainInv(s) && x in SeenLeaves(s, m) && k in s.chain.leaves && k.memo == m && m in s.msgs && !s.msgs[m].ton
    ensures x == k.lt
  {
    hide SeenLeaves, OrderOk, LeaveOk, ArrivalOk;
    SeenLeaf(s, m, x);
  }
}
