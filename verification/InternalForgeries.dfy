/** What strangers' transfer requests can do: a block with one whose comment is not a UUID is passed over for good, and
  * one that repeats the comment of a finished withdrawal leads to two withdrawals of a deposit under way at once. */
module InternalForgeries {
  import opened Base
  import opened BlockEffects
  import opened InternalRuns
  import opened InternalSafety
  import opened InternalScan
  import opened InternalTheorems
  import opened InternalThreshold
  import opened Ledger
  import opened Runs
  import opened TaskQueries
  import opened Uuids

  // ---- Passing a block over ----

  /** In no run is the block of a request whose comment is not a UUID saved. */
  lemma {:induction false} UnreadableIsPassedOver(slack: nat, r: InternalRun, id: nat)
    requires IsRun(slack, r) && id in r.last.chain.forged && ParseUuid(r.last.chain.forged[id].memo).None?
    ensures !Saved(r.last, r.last.chain.forged[id].block)
  {
    hide ParseUuid, Next;
    match r
    case Start(_) =>
    case Then(b, p, s) =>
      StaysInPlace(slack, b);
      ChainGrows(slack, b.last, p, s);
      if id !in b.last.chain.forged {
        NewAreAhead(slack, b.last, p, s, id);
      } else {
        UnreadableIsPassedOver(slack, b, id);
        if Saved(s, s.chain.forged[id].block) {
          SavedBy(slack, b.last, p, s, s.chain.forged[id].block);
          UnreadableRejects(slack, b.last, p, s, id);
        }
      }
  }

  lemma NewAreAhead(slack: nat, s: Sys, p: Step, s': Sys, id: nat)
    requires Next(slack, s, p, s') && InPlace(s) && id in s'.chain.forged && id !in s.chain.forged
    ensures !Saved(s', s'.chain.forged[id].block)
  {
    hide JettonQuery, TonQuery, SaveTask, ApplyBlock, ExpireInternal, Reconciled, OrderAllowed, LeaveAllowed,
         ArrivalAllowed;
  }

  /** A block is saved by its own scan only. */
  lemma SavedBy(slack: nat, s: Sys, p: Step, s': Sys, n: nat)
    requires Next(slack, s, p, s') && Saved(s', n) && !Saved(s, n)
    ensures p.Scan? && p.at == n && s' != s
  {
    hide JettonQuery, TonQuery, SaveTask, ApplyBlock, ExpireInternal, Reconciled, Mined;
  }

  predicate Saved(s: Sys, n: nat) { n < s.saved && n !in s.gaps }

  lemma UnreadableRejects(slack: nat, s: Sys, p: Step, s': Sys, id: nat)
    requires Next(slack, s, p, s') && p.Scan? && id in s.chain.forged && ParseUuid(s.chain.forged[id].memo).None?
    ensures s.chain.forged[id].block == p.at ==> s' == s
  {
    hide ParseUuid, ApplyBlock, DistinctIncomes, AllReceivable, AllSendable, FailuresLast, BlockDone, GainsInOrder;
    if s.chain.forged[id].block == p.at {
      var e := p.block.events;
      BlockEffect(s.t, p.block);
      SameReconciled(s, Passed(s, p.at), p.at, e, p.origin);
      var i := StrangeEvent(Passed(s, p.at), e, p.origin, id);
      assert ComesFrom(s, p.at, e.intWithdrawals[i], p.origin[i]);
      if ApplyBlock(s.t, p.block).Ok? { ReadyIsUuid(s.t, e, i); }
    }
  }

  lemma ReadyIsUuid(t: Tables, e: Events, i: nat)
    requires Admissible(t, e) && i < |e.intWithdrawals|
    ensures ParseUuid(e.intWithdrawals[i].memo).Some?
  {
    hide ParseUuid, DistinctIncomes, AllReceivable, AllSendable, FailuresLast;
    assert Ready(t.internals, e.sendings, e.intWithdrawals[i]);
  }

  lemma {:induction false} ForgedForever(slack: nat, r: InternalRun, later: InternalRun, id: nat)
    requires IsRun(slack, later) && Continues(r, later) && id in r.last.chain.forged
    ensures id in later.last.chain.forged && later.last.chain.forged[id] == r.last.chain.forged[id]
  {
    hide Next;
    if later != r {
      ForgedForever(slack, r, later.before, id);
      ChainGrows(slack, later.before.last, later.step, later.last);
    }
  }

  lemma FreshId(m: map<nat, Forgery>) returns (id: nat)
    ensures id !in m
  {
    id := if m.Keys == {} then 0 else MaxOf(m.Keys).value + 1;
  }

  lemma FreshKey(m: map<BlockKey, Time>) returns (k: BlockKey)
    ensures k !in m
  {
    var seqnos := set k | k in m :: k.seqno;
    k := BlockKey(0, if seqnos == {} then 0 else MaxOf(seqnos).value + 1);
    assert k in m ==> k.seqno in seqnos;
  }

  /** Blocks come at whole seconds, and everything on the chain lies in one of them. */
  predicate OnChain(c: Chain) {
    && (forall i :: 0 <= i < |c.gens| ==> c.gens[i] % SECOND == 0)
    && (forall m :: m in c.orders ==> c.orders[m].block < |c.gens|)
    && (forall k :: k in c.leaves ==> c.leaves[k].block < |c.gens|)
    && (forall k :: k in c.arrivals ==> c.arrivals[k].block < |c.gens|)
    && forall id :: id in c.forged ==> c.forged[id].block < |c.gens|
  }

  lemma {:induction false} StaysOnChain(slack: nat, r: InternalRun)
    requires IsRun(slack, r)
    ensures OnChain(r.last.chain)
  {
    hide JettonQuery, TonQuery, SaveTask, ApplyBlock, ExpireInternal, Reconciled, Mined;
    match r
    case Start(_) =>
    case Then(b, p, s) =>
      StaysOnChain(slack, b);
      if p.Mine? { MinedOnChain(b.last, p, s); }
  }

  lemma MinedOnChain(s: Sys, p: Step, s': Sys)
    requires p.Mine? && Mined(s, p.gen, p.orders, p.leaves, p.arrivals, p.forged, s'.chain) && OnChain(s.chain)
    ensures OnChain(s'.chain)
  {
    forall m | m in p.orders ensures p.orders[m].block == |s.chain.gens| {
      assert OrderAllowed(s, p.gen, m, p.orders[m]);
    }
    forall k | k in p.leaves ensures p.leaves[k].block == |s.chain.gens| {
      assert LeaveAllowed(s, p.gen, p.orders, p.leaves, k);
    }
    forall k | k in p.arrivals ensures p.arrivals[k].block == |s.chain.gens| {
      assert ArrivalAllowed(s, p.leaves, k, p.arrivals[k]);
    }
  }

  function NextGen(s: Sys): Time {
    var n := |s.chain.gens|;
    if n == 0 then 0 else s.chain.gens[n - 1] + s.spacing * SECOND
  }

  lemma StrangeStep(slack: nat, s: Sys, forged: map<nat, Forgery>, s': Sys)
    requires OnChain(s.chain)
    requires forall id :: id in forged ==> id !in s.chain.forged && forged[id].block == |s.chain.gens|
    requires s' == s.(chain := s.chain.(gens := s.chain.gens + [NextGen(s)], forged := s.chain.forged + forged))
    ensures Next(slack, s, Mine(NextGen(s), map[], map[], map[], forged), s')
  {
    hide Mined;
    StrangersMined(s, NextGen(s), forged);
  }

  /** The chain gets a block without anything of ours. */
  lemma {:induction false} StrangeBlock(slack: nat, r: InternalRun, forged: map<nat, Forgery>) returns (r': InternalRun)
    requires IsRun(slack, r)
    requires forall id :: id in forged ==> id !in r.last.chain.forged && forged[id].block == |r.last.chain.gens|
    ensures IsRun(slack, r') && Continues(r, r')
    ensures r'.last == r.last.(chain := r.last.chain.(gens := r.last.chain.gens + [NextGen(r.last)],
                                                      forged := r.last.chain.forged + forged))
  {
    hide Next, NextGen, OnChain;
    var s, gen := r.last, NextGen(r.last);
    StaysOnChain(slack, r);
    var s' := s.(chain := s.chain.(gens := s.chain.gens + [gen], forged := s.chain.forged + forged));
    StrangeStep(slack, s, forged, s');
    r' := Then(r, Mine(gen, map[], map[], map[], forged), s');
  }

  lemma EmptyScan(slack: nat, s: Sys, n: nat, b: BlockEvents, s': Sys)
    requires s.saved <= n < |s.chain.gens| && OnChain(s.chain.(gens := s.chain.gens[..n]))
    requires b.events == NO_EVENTS && b.key !in s.t.blocks
    requires s' == s.(t := s.t.(blocks := s.t.blocks[b.key := b.genUtime]), saved := n + 1,
                      gaps := s.gaps + Between(s.saved, n))
    ensures Next(slack, s, Scan(n, b, []), s')
  {
    hide JettonQuery, TonQuery, Reconciled, OnChain;
    NothingIn(s, n);
    assert ChangesOf(NO_EVENTS) == [];
  }

  /** The last block holds nothing: the scanner saves it, whatever it has left unsaved. */
  lemma {:induction false} ScanLast(slack: nat, r: InternalRun, n: nat) returns (r': InternalRun)
    requires IsRun(slack, r) && |r.last.chain.gens| == n + 1 && r.last.saved <= n
    requires OnChain(r.last.chain.(gens := r.last.chain.gens[..n]))
    requires InPlace(r.last)
    ensures IsRun(slack, r') && Continues(r, r') && r'.last.chain == r.last.chain && Saved(r'.last, n)
  {
    hide Next, OnChain;
    var s := r.last;
    var key := FreshKey(s.t.blocks);
    var b := BlockEvents(NO_EVENTS, key, 0);
    var s' := s.(t := s.t.(blocks := s.t.blocks[key := 0]), saved := n + 1, gaps := s.gaps + Between(s.saved, n));
    EmptyScan(slack, s, n, b, s');
    r' := Then(r, Scan(n, b, []), s');
  }

  lemma NothingIn(s: Sys, n: nat)
    requires n <= |s.chain.gens| && OnChain(s.chain.(gens := s.chain.gens[..n]))
    ensures Reconciled(s, n, NO_EVENTS, [])
  {}

  /** From every reachable state, one such request in the next block is enough: no later run saves that block, while
    * some save the block after it. */
  lemma OneRequestHidesBlock(slack: nat, r: InternalRun) returns (r': InternalRun, later: InternalRun)
    requires IsRun(slack, r)
    ensures IsRun(slack, r') && Continues(r, r') && |r'.last.chain.gens| == |r.last.chain.gens| + 1
    ensures forall l :: IsRun(slack, l) && Continues(r', l) ==> !Saved(l.last, |r.last.chain.gens|)
    ensures IsRun(slack, later) && Continues(r', later) && Saved(later.last, |r.last.chain.gens| + 1)
  {
    hide IsRun, ParseUuid, OnChain, NextGen;
    var n := |r.last.chain.gens|;
    var key := FreshId(r.last.chain.forged);
    var forged := map[key := Forgery(n, [], 0, 0)];
    r' := StrangeBlock(slack, r, forged);
    NoUuid();
    forall l | IsRun(slack, l) && Continues(r', l) ensures !Saved(l.last, n) {
      ForgedForever(slack, r', l, key);
      UnreadableIsPassedOver(slack, l, key);
    }
    StaysInPlace(slack, r');
    StaysOnChain(slack, r');
    later := StrangeBlock(slack, r', map[]);
    var c := later.last.chain;
    assert c.(gens := c.gens[..n + 1]) == r'.last.chain;
    var mid := later;
    StaysInPlace(slack, mid);
    later := ScanLast(slack, later, n + 1);
    ContinuesOn(r', mid, later);
  }

  lemma NoUuid()
    ensures ParseUuid([]).None?
  {}

  lemma {:induction false} ContinuesOn(r: InternalRun, mid: InternalRun, later: InternalRun)
    requires Continues(r, mid) && Continues(mid, later)
    ensures Continues(r, later)
  {
    if later != mid { ContinuesOn(r, mid, later.before); }
  }

  // ---- Two withdrawals under way ----

  const JETTON := Jetton([])
  const WALLETS := Wallets(map[DEPOSIT := JettonWallet(0, JETTON, JettonDeposit)], map[])
  const MEMO2 := Uuid(MEMO.digits[31 := 1])
  const MEMO3 := Uuid(MEMO.digits[31 := 2])
  const LATER := ExternalIncome(6, 0, None, DEPOSIT, 5, [])

  /** A run of the witness between two steps of the processors: at time 0, with `n` of `mined` blocks saved and nothing
    * picked. */
  ghost predicate AtRest(r: InternalRun, w: Wallets, n: nat, mined: nat) {
    && DelayedRun(0, 0, 0, r) && ExpiryGuarded(0, r) && r.last.wallets == w && AtRestState(r.last, n, mined)
  }

  predicate AtRestState(s: Sys, n: nat, mined: nat) {
    && s.now == 0 && s.spacing == 0 && s.picked == {} && s.pickedTon == {} && s.gaps == {}
    && 0 < s.saved == n <= |s.chain.gens| == mined && (forall i :: 0 <= i < mined ==> s.chain.gens[i] == 0)
    && (forall k :: k in s.t.blocks ==> k.seqno < n)
  }

  lemma Generate(r: InternalRun, w: Wallets, n: nat, mined: nat, orders: map<Uuid, Order>,
                 leaves: map<Departure, Leave>, forged: map<nat, Forgery>, c: Chain) returns (r': InternalRun)
    requires AtRest(r, w, n, mined) && Mined(r.last, 0, orders, leaves, map[], forged, c)
      && RealisticBlock(r.last, 0, orders, leaves)
    requires c.gens == r.last.chain.gens + [0]
    ensures AtRest(r', w, n, mined + 1) && r'.last == r.last.(chain := c)
  {
    hide DelayedRun, Mined, RealisticBlock;
    r' := Grow(0, 0, 0, r, Mine(0, orders, leaves, map[], forged), r.last.(chain := c));
  }

  lemma GenerateEmpty(r: InternalRun, w: Wallets, n: nat) returns (r': InternalRun)
    requires AtRest(r, w, n, n)
    ensures AtRest(r', w, n, n + 1)
      && r'.last == r.last.(chain := r.last.chain.(gens := r.last.chain.gens + [0]))
  {
    hide DelayedRun, Mined;
    var c := r.last.chain;
    StrangersMined(r.last, 0, map[]);
    assert c.forged + map[] == c.forged;
    r' := Generate(r, w, n, n, map[], map[], map[], c.(gens := c.gens + [0]));
  }

  lemma SaveBlock(r: InternalRun, w: Wallets, n: nat, mined: nat, e: Events, origin: seq<Origin>)
    returns (r': InternalRun)
    requires AtRest(r, w, n, mined) && n < mined && Reconciled(r.last, n, e, origin) && Admissible(r.last.t, e)
    requires e.extWithdrawals == [] && e.confirmations == []
    ensures AtRest(r', w, n + 1, mined) && r'.last.chain == r.last.chain && r'.last.msgs == r.last.msgs
    ensures BlockDone(r.last.t, e, r'.last.t.(blocks := r.last.t.blocks))
  {
    hide DelayedRun, Reconciled, Admissible, BlockDone, ApplyBlock;
    var b, s2 := ScanNext(0, r.last, e, origin);
    r' := Grow(0, 0, 0, r, Scan(n, b, origin), s2);
  }

  /** The next block is generated and saved. */
  lemma NextBlock(r: InternalRun, w: Wallets, n: nat, orders: map<Uuid, Order>, leaves: map<Departure, Leave>,
                  forged: map<nat, Forgery>, c: Chain, e: Events, origin: seq<Origin>) returns (r': InternalRun)
    requires AtRest(r, w, n, n) && Mined(r.last, 0, orders, leaves, map[], forged, c)
      && RealisticBlock(r.last, 0, orders, leaves)
    requires c.gens == r.last.chain.gens + [0]
    requires Reconciled(r.last.(chain := c), n, e, origin) && Admissible(r.last.t, e)
    requires e.extWithdrawals == [] && e.confirmations == []
    ensures AtRest(r', w, n + 1, n + 1) && r'.last.chain == c && r'.last.msgs == r.last.msgs
    ensures BlockDone(r.last.t, e, r'.last.t.(blocks := r.last.t.blocks))
  {
    hide DelayedRun, Mined, Reconciled, Admissible, BlockDone, RealisticBlock;
    r' := Generate(r, w, n, n, orders, leaves, forged, c);
    r' := SaveBlock(r', w, n, n + 1, e, origin);
  }

  /** The jetton processor picks a task in sync and saves it. */
  lemma Withdraw(r: InternalRun, w: Wallets, n: nat, mined: nat, t: InternalTask, memo: Uuid)
    returns (r': InternalRun)
    requires AtRest(r, w, n, mined) && t in JettonQuery(DbOf(r.last), {}) && memo !in r.last.t.internals
    ensures AtRest(r', w, n, mined) && r'.last.chain == r.last.chain
      && r'.last.msgs == r.last.msgs[memo := Message(t.lt, 0, LIFETIME, false)]
    ensures r'.last.t == r.last.t.(internals :=
      r.last.t.internals[memo := IntRow(t.deposit, t.lt, LIFETIME, None, None, 0, false)])
  {
    hide DelayedRun, JettonQuery;
    var s := r.last;
    r' := Grow(0, 0, 0, r, PickJetton({t}, {}), s.(picked := {t}));
    var row := IntRow(t.deposit, t.lt, LIFETIME, None, None, 0, false);
    var s2 := s.(t := s.t.(internals := s.t.internals[memo := row]),
      msgs := s.msgs[memo := Message(t.lt, 0, LIFETIME, false)]);
    assert {t} - {t} == {};
    r' := Grow(0, 0, 0, r', Save(t, false, memo, LIFETIME, LIFETIME), s2);
  }

  lemma Memos()
    ensures MEMO != MEMO2 && MEMO != MEMO3 && MEMO2 != MEMO3
  {
    assert MEMO.digits[31] == 0 && MEMO2.digits[31] == 1 && MEMO3.digits[31] == 2;
  }

  /** One withdrawal event at logical time `lt` alone, and what it leaves of a row. */
  lemma OneEvent(r: IntRow, sendings: seq<SendingConfirmation>, ws: seq<InternalWithdrawal>, m: Uuid)
    requires |ws| == 1 && ParseUuid(ws[0].memo) == Some(m)
    requires sendings == [] || (|sendings| == 1 && ParseUuid(sendings[0].memo) == Some(m))
    ensures RowAfter(r, NO_EVENTS.(sendings := sendings, intWithdrawals := ws), m) ==
            r.(sendingLt := if sendings == [] then r.sendingLt else Some(sendings[0].lt),
               failed := r.failed || ws[0].isFailed,
               finishLt := if ws[0].isFailed then r.finishLt else Some(ws[0].lt),
               amount := if ws[0].isFailed then r.amount else r.amount + ws[0].amount)
  {
    hide ParseUuid;
    assert FailsIn(ws, m) <==> ws[0].isFailed by { assert ws[0] in ws; }
    assert ws[..|ws| - 1] == [];
    assert LastGain(ws, m) == if ws[0].isFailed then None else Some(ws[0].lt);
    assert GainSum(ws, m) == if ws[0].isFailed then 0 else ws[0].amount;
    assert LastSent(sendings, m) == if sendings == [] then None else Some(sendings[0].lt);
  }

  const FIRST := InternalTask(DEPOSIT, 0, 1, JETTON)
  const SENT := Order(1, 2)
  const LEFT := Departure(MEMO, 3)

  /** A due deposit is offered with its latest income. */
  lemma Offered(db: Db, lt: nat)
    requires db.wallets == WALLETS && JettonLts(db, DEPOSIT) != {} && MaxOf(JettonLts(db, DEPOSIT)) == Some(lt)
    ensures InternalTask(DEPOSIT, 0, lt, JETTON) in JettonQuery(db, {})
  {
    hide JettonLts;
  }

  lemma FirstDue(db: Db)
    requires db.wallets == WALLETS && db.incomes == multiset{INCOME} && Ordered(db.rows)
      && forall m :: !Live(db.rows, m, DEPOSIT)
    ensures FIRST in JettonQuery(db, {})
  {
    hide JettonLts, Ordered, JettonQuery;
    OneIncome(db);
    JettonOffers(db, DEPOSIT);
    assert MaxOf(IncomeLts(db, DEPOSIT)) == Some(1);
    Offered(db, 1);
  }

  /** The first withdrawal is ordered, leaves and is confirmed in one block. */
  lemma Finished() returns (r: InternalRun)
    ensures AtRest(r, WALLETS, 2, 2) && r.last.t.extIncomes == multiset{INCOME}
      && r.last.msgs == map[MEMO := Message(1, 0, LIFETIME, false)]
    ensures r.last.chain == NOTHING.(gens := [0, 0], orders := map[MEMO := SENT],
      leaves := map[LEFT := Leave(1, 5, true)])
    ensures r.last.t.internals == map[MEMO := IntRow(DEPOSIT, 1, LIFETIME, Some(2), Some(3), 5, false)]
  {
    hide DelayedRun, JettonQuery, Mined, Reconciled, Admissible, BlockDone, ExpiryGuarded, RowAfter;
    r := FirstIncome(0, 0, 0, WALLETS);
    FirstDue(DbOf(r.last));
    r := Withdraw(r, WALLETS, 1, 1, FIRST, MEMO);
    var orders, leaves := map[MEMO := SENT], map[LEFT := Leave(1, 5, true)];
    var c := NOTHING.(gens := [0, 0], orders := orders, leaves := leaves);
    var s := r.last;
    var e, origin := OwnBlockEvents(s, orders, leaves, c);
    r := NextBlock(r, WALLETS, 1, orders, leaves, map[], c, e, origin);
    var row := IntRow(DEPOSIT, 1, LIFETIME, None, None, 0, false);
    OnlyRow(s.t, e, r.last.t.(blocks := s.t.blocks), row);
    OneEvent(row, e.sendings, e.intWithdrawals, MEMO);
  }

  lemma OwnBlockEvents(s: Sys, orders: map<Uuid, Order>, leaves: map<Departure, Leave>, c: Chain)
    returns (e: Events, origin: seq<Origin>)
    requires s.chain == NOTHING.(gens := [0]) && s.spacing == 0 && s.now == 0
    requires s.msgs == map[MEMO := Message(1, 0, LIFETIME, false)] && orders == map[MEMO := SENT]
      && leaves == map[LEFT := Leave(1, 5, true)]
    requires c == NOTHING.(gens := [0, 0], orders := orders, leaves := leaves)
    requires s.t.internals == map[MEMO := IntRow(DEPOSIT, 1, LIFETIME, None, None, 0, false)]
    ensures Mined(s, 0, orders, leaves, map[], map[], c) && RealisticBlock(s, 0, orders, leaves)
    ensures ParseUuid(PrintUuid(MEMO)) == Some(MEMO)
    ensures e == NO_EVENTS.(sendings := [SendingConfirmation(2, DEPOSIT, PrintUuid(MEMO))],
      intWithdrawals := [InternalWithdrawal(3, 0, DEPOSIT, 5, PrintUuid(MEMO), false)])
    ensures Reconciled(s.(chain := c), 1, e, origin) && Admissible(s.t, e)
  {
    hide Mined, Admissible, ParseUuid, PrintUuid;
    OwnBlockMined(s, orders, leaves, c);
    UuidRoundTrip(MEMO);
    var text := PrintUuid(MEMO);
    var confirmed, w := SendingConfirmation(2, DEPOSIT, text), InternalWithdrawal(3, 0, DEPOSIT, 5, text, false);
    e, origin := NO_EVENTS.(sendings := [confirmed], intWithdrawals := [w]), [Ours(LEFT)];
    var s' := s.(chain := c);
    assert SentIn(s', 1, MEMO) && confirmed in e.sendings && w in e.intWithdrawals;
    assert IsOf(w, LEFT) && origin[0] == Ours(LEFT);
    OwnAdmissible(s.t, e, confirmed, w, MEMO);
  }

  lemma OwnAdmissible(t: Tables, e: Events, c: SendingConfirmation, w: InternalWithdrawal, m: Uuid)
    requires e == NO_EVENTS.(sendings := [c], intWithdrawals := [w]) && c.memo == w.memo && ParseUuid(c.memo) == Some(m)
    requires m in t.internals && !t.internals[m].failed
    ensures Admissible(t, e)
  {
    hide ParseUuid;
    assert c in e.sendings;
  }

  lemma OwnBlockMined(s: Sys, orders: map<Uuid, Order>, leaves: map<Departure, Leave>, c: Chain)
    requires s.chain == NOTHING.(gens := [0]) && s.spacing == 0
    requires s.msgs == map[MEMO := Message(1, 0, LIFETIME, false)] && orders == map[MEMO := SENT]
      && leaves == map[LEFT := Leave(1, 5, true)]
    requires c == NOTHING.(gens := [0, 0], orders := orders, leaves := leaves)
    ensures Mined(s, 0, orders, leaves, map[], map[], c)
  {
    assert c.gens == s.chain.gens + [0] && c.orders == s.chain.orders + orders && c.leaves == s.chain.leaves + leaves;
    assert s.chain.arrivals + map[] == map[] && s.chain.forged + map[] == map[];
  }

  /** The effect of one block's events of one memo on the only row. */
  lemma OnlyRow(t: Tables, e: Events, u: Tables, row: IntRow)
    requires BlockDone(t, e, u) && t.internals == map[MEMO := row] && e.extIncomes == []
    ensures u.internals == map[MEMO := RowAfter(row, e, MEMO)] && u.extIncomes == t.extIncomes
  {
    hide RowAfter, ReceivedBy;
    assert multiset(e.extIncomes) == multiset{};
  }

  /** A stranger's failed request repeats the memo. */
  lemma Forged() returns (r: InternalRun)
    ensures AtRest(r, WALLETS, 3, 3) && r.last.t.extIncomes == multiset{INCOME}
    ensures r.last.chain == NOTHING.(gens := [0, 0, 0], orders := map[MEMO := SENT],
      leaves := map[LEFT := Leave(1, 5, true)],
                                     forged := map[0 := Forgery(2, PrintUuid(MEMO), 4, 5)])
    ensures r.last.t.internals == map[MEMO := IntRow(DEPOSIT, 1, LIFETIME, Some(2), Some(3), 5, true)]
  {
    hide DelayedRun, Mined, Reconciled, Admissible, BlockDone, ExpiryGuarded, RowAfter, ParseUuid, PrintUuid;
    r := Finished();
    UuidRoundTrip(MEMO);
    var s, forged := r.last, map[0 := Forgery(2, PrintUuid(MEMO), 4, 5)];
    var c := s.chain.(gens := [0, 0, 0], forged := forged);
    StrangersMined(s, 0, forged);
    assert s.chain.gens + [0] == [0, 0, 0] && s.chain.forged + forged == forged;
    var w := InternalWithdrawal(4, 0, DEPOSIT, 5, PrintUuid(MEMO), true);
    var e := NO_EVENTS.(intWithdrawals := [w]);
    StrangeReconciled(s.(chain := c), e, w);
    StrangeAdmissible(s.t, e, w, MEMO);
    r := NextBlock(r, WALLETS, 2, map[], map[], forged, c, e, [Strangers(0)]);
    var row := IntRow(DEPOSIT, 1, LIFETIME, Some(2), Some(3), 5, false);
    OnlyRow(s.t, e, r.last.t.(blocks := s.t.blocks), row);
    OneEvent(row, [], [w], MEMO);
  }

  lemma StrangeReconciled(s: Sys, e: Events, w: InternalWithdrawal)
    requires s.chain.arrivals == map[] && s.chain.orders == map[MEMO := SENT]
      && s.chain.leaves == map[LEFT := Leave(1, 5, true)]
    requires s.chain.forged == map[0 := Forgery(2, PrintUuid(MEMO), 4, 5)]
    requires w == InternalWithdrawal(4, 0, DEPOSIT, 5, PrintUuid(MEMO), true)
    requires e == NO_EVENTS.(intWithdrawals := [w])
    ensures Reconciled(s, 2, e, [Strangers(0)])
  {
    hide PrintUuid, ParseUuid;
  }

  lemma StrangeAdmissible(t: Tables, e: Events, w: InternalWithdrawal, m: Uuid)
    requires e == NO_EVENTS.(intWithdrawals := [w]) && ParseUuid(w.memo) == Some(m)
    requires m in t.internals && !t.internals[m].failed && t.internals[m].sendingLt.Some?
    ensures Admissible(t, e)
  {
    hide ParseUuid;
  }

  /** The failed row that carries a finish_lt hides the deposit's next withdrawal, in a state that runs reach. The
    * deposit has jettons again, from an income in a block that is not saved yet, when that withdrawal is built. */
  lemma ShadowReached() returns (r: InternalRun)
    ensures AtRest(r, WALLETS, 3, 4) && r.last.t.extIncomes == multiset{INCOME}
    ensures ShadowedBy(r.last.t.internals, DEPOSIT, MEMO2, MEMO)
    ensures r.last.t.internals.Keys == {MEMO, MEMO2} && Ordered(r.last.t.internals)
      && r.last.t.internals[MEMO2].sinceLt == 1
    ensures NothingAhead(r.last)
  {
    hide DelayedRun, JettonQuery, ExpiryGuarded, Mined, PrintUuid;
    r := Forged();
    FirstDue(DbOf(r.last));
    Memos();
    r := GenerateEmpty(r, WALLETS, 3);
    r := Withdraw(r, WALLETS, 3, 4, FIRST, MEMO2);
  }

  /** No block that is still to be saved holds anything of ours or a stranger's. */
  predicate NothingAhead(s: Sys) {
    && s.chain.arrivals == map[] && (forall m :: m in s.chain.orders ==> s.chain.orders[m].block < s.saved)
    && (forall k :: k in s.chain.leaves ==> s.chain.leaves[k].block < s.saved)
    && forall id :: id in s.chain.forged ==> s.chain.forged[id].block < s.saved
  }

  /** A deposit with two withdrawals under way, in a run with one strange request. The first withdrawal finishes; the
    * request makes its row fail, so the deposit is offered again; the failed row hides that the second withdrawal is
    * under way, and with new income the deposit is offered once more. */
  lemma TwoInFlight() returns (r: InternalRun, m: Uuid, n: Uuid)
    ensures DelayedRun(0, 0, 0, r) && ExpiryGuarded(0, r)
    ensures m != n && InFlight(r.last.t.internals, m, DEPOSIT) && InFlight(r.last.t.internals, n, DEPOSIT)
  {
    hide DelayedRun, JettonQuery, ExpiryGuarded, Reconciled, Admissible, BlockDone, ShadowedBy, JettonLts, Ordered;
    r := ShadowReached();
    m, n := MEMO2, MEMO3;
    var s, e := r.last, NO_EVENTS.(extIncomes := [LATER]);
    OnlyLater(s, e);
    r := SaveBlock(r, WALLETS, 3, 4, e, []);
    NothingDone(s.t, e, r.last.t.(blocks := s.t.blocks));
    var lt := OfferedAgain(DbOf(r.last));
    Memos();
    assert InFlight(r.last.t.internals, m, DEPOSIT) by {
      assert ShadowedBy(s.t.internals, DEPOSIT, MEMO2, MEMO);
      ShadowedIsInFlight(s.t.internals, MEMO2, MEMO);
    }
    r := Withdraw(r, WALLETS, 4, 4, InternalTask(DEPOSIT, 0, lt, JETTON), MEMO3);
  }

  lemma ShadowedIsInFlight(rows: map<Uuid, IntRow>, m: Uuid, f: Uuid)
    requires ShadowedBy(rows, DEPOSIT, m, f)
    ensures InFlight(rows, m, DEPOSIT)
  {}

  lemma OnlyLater(s: Sys, e: Events)
    requires NothingAhead(s) && e == NO_EVENTS.(extIncomes := [LATER])
    ensures Reconciled(s, s.saved, e, []) && Admissible(s.t, e)
  {}

  lemma OfferedAgain(db: Db) returns (lt: nat)
    requires db.wallets == WALLETS && Ordered(db.rows) && db.incomes == multiset{INCOME} + multiset([LATER])
    requires ShadowedBy(db.rows, DEPOSIT, MEMO2, MEMO) && db.rows[MEMO2].sinceLt == 1
    ensures InternalTask(DEPOSIT, 0, lt, JETTON) in JettonQuery(db, {})
  {
    hide Ordered, JettonQuery, JettonLts;
    assert LATER in db.incomes && 6 in IncomeLts(db, DEPOSIT);
    assert NewIncome(db, DEPOSIT);
    assert Shadowed(db.rows, DEPOSIT);
    JettonOffers(db, DEPOSIT);
    lt := MaxOf(JettonLts(db, DEPOSIT)).value;
    Offered(db, lt);
  }
}
