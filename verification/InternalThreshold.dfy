/** How much time may be lost on the internal side: between the expiry processor's sync check and its update, and
  * between recording the expiry of a message and building the message. */
module InternalThreshold {
  import opened Base
  import opened BlockApplication
  import opened BlockEffects
  import opened InternalRuns
  import opened InternalSafety
  import opened InternalScan
  import opened InternalTheorems
  import opened Ledger
  import opened Runs
  import opened TaskQueries
  import opened Uuids

  // ---- The code's own clock readings ----

  /** The message is built `d` after its row was saved. */
  predicate BuiltAfter(s: Sys, d: Time, slack: nat, ttl: Time) {
    0 <= d <= slack && ttl == TtlAt(s.now + d)
  }

  predicate RealisticBlock(s: Sys, gen: Time, orders: map<Uuid, Order>, leaves: map<Departure, Leave>) {
    && gen <= s.now
    && (forall m :: m in orders ==> m in s.msgs && s.msgs[m].savedAt <= gen)
    && forall k :: k in leaves ==> k.memo in s.msgs && s.msgs[k.memo].savedAt <= gen
  }

  /** Tasks are picked in sync; a TON row records the clock plus the lifetime and its message is built up to `slack`
    * later, a jetton row records the TTL itself; a block comes from the past and after the messages it executes. */
  ghost predicate RealisticStep(slack: nat, s: Sys, p: Step) {
    match p
    case PickJetton(_, _) => InSync(s)
    case PickTon(_) => InSync(s)
    case Save(_, ton, _, expiredAt, ttl) =>
      if ton then expiredAt == s.now + LIFETIME && exists d :: BuiltAfter(s, d, slack, ttl) else expiredAt == ttl
    case Mine(gen, orders, leaves, _, _) => RealisticBlock(s, gen, orders, leaves)
    case _ => true
  }

  ghost predicate Realistic(slack: nat, r: InternalRun) {
    r.Then? ==> Realistic(slack, r.before) && RealisticStep(slack, r.before.last, r.step)
  }

  /** The cutoff the code computes, at most `delta` after its sync check. */
  predicate UpdateAsWritten(delta: Time, s: Sys, p: Step) {
    p.Expire? ==>
      p.cutoff == s.now - ALLOWABLE_LAG && (s.checkedAt.Some? ==> s.now - s.checkedAt.value <= delta)
  }

  predicate AsWritten(delta: Time, r: InternalRun) {
    r.Then? ==> AsWritten(delta, r.before) && UpdateAsWritten(delta, r.before.last, r.step)
  }

  // ---- The threshold ----

  lemma SameSpacing(slack: nat, s: Sys, p: Step, s': Sys)
    requires Next(slack, s, p, s')
    ensures s'.spacing == s.spacing
  {
    hide JettonQuery, TonQuery, SaveTask, ApplyBlock, ExpireInternal, Reconciled, Mined;
  }

  lemma DelayedCutoff(slack: nat, delta: Time, s: Sys, p: Step, s': Sys)
    requires Inv(slack, s) && Next(slack, s, p, s') && p.Expire? && UpdateAsWritten(delta, s, p)
    requires delta + slack <= s.spacing * SECOND
    ensures SafeCutoff(slack, s, p.cutoff)
  {
    hide ChainInv, RowsInv, HotInv, Ordered, PickInv, ExpireInternal;
  }

  /** Losing no more than the time between two blocks, in all, makes every update a safe one. */
  lemma {:induction false} GuardedWithinSpacing(slack: nat, delta: Time, r: InternalRun)
    requires IsRun(slack, r) && Clean(r.last) && AsWritten(delta, r) && delta + slack <= r.last.spacing * SECOND
    ensures ExpiryGuarded(slack, r)
  {
    hide Inv, Next, Unforged, Lossless, SafeCutoff, UpdateAsWritten, OwnBlock, Idle;
    match r
    case Start(_) =>
    case Then(b, p, s) =>
      SameSpacing(slack, b.last, p, s);
      StaysInPlace(slack, b);
      CleanBefore(slack, b.last, p, s);
      GuardedWithinSpacing(slack, delta, b);
      RunKeepsInv(slack, b);
      if p.Expire? { DelayedCutoff(slack, delta, b.last, p, s); }
  }

  ghost predicate DelayedRun(spacing: nat, slack: nat, delta: Time, r: InternalRun) {
    IsRun(slack, r) && Realistic(slack, r) && AsWritten(delta, r) && r.last.spacing == spacing
  }

  /** The block at `at` holds `e`, nothing of ours lies in the blocks before it that are not saved, and no stranger
    * meddles in it. */
  ghost predicate Due(s: Sys, at: nat, e: Events, origin: seq<Origin>) {
    && s.saved <= at < |s.chain.gens| && (forall n :: s.saved <= n < at ==> Idle(s, n))
    && Reconciled(s, at, e, origin) && OwnBlock(s, at)
  }

  ghost predicate Accepted(r: InternalRun, at: nat, e: Events, origin: seq<Origin>) {
    Due(r.last, at, e, origin) ==> ApplyChanges(r.last.t, InnerChanges(e)).Ok?
  }

  /** The next block is accepted in every realistic run that no stranger meddled in and that left nothing behind. */
  ghost predicate Accepting(spacing: nat, slack: nat, delta: Time) {
    forall r, at, e, origin :: DelayedRun(spacing, slack, delta, r) && Clean(r.last) ==> Accepted(r, at, e, origin)
  }

  lemma GuardedAccepts(slack: nat, r: InternalRun, at: nat, e: Events, origin: seq<Origin>)
    requires IsRun(slack, r) && ExpiryGuarded(slack, r) && Clean(r.last)
    ensures Accepted(r, at, e, origin)
  {
    hide IsRun, ExpiryGuarded, Unforged, Lossless, Reconciled, OwnBlock, Idle, ApplyChanges;
    if Due(r.last, at, e, origin) { ScanAccepted(slack, r, at, e, origin); }
  }

  /** The exact threshold: the scanner never meets a block of ours that the tables reject if and only if the two
    * delays together do not exceed the least block spacing. */
  lemma AcceptingIffWithinSpacing(spacing: nat, slack: nat, delta: Time)
    requires delta >= 0
    ensures Accepting(spacing, slack, delta) <==> delta + slack <= spacing * SECOND
  {
    hide IsRun, Realistic, AsWritten, Clean, Accepted;
    if delta + slack <= spacing * SECOND {
      forall r, at, e, origin | DelayedRun(spacing, slack, delta, r) && Clean(r.last)
        ensures Accepted(r, at, e, origin) {
        GuardedWithinSpacing(slack, delta, r);
        GuardedAccepts(slack, r, at, e, origin);
      }
    } else {
      var r, at, e, origin := LateMessage(spacing, slack, delta);
      assert !Accepted(r, at, e, origin);
    }
  }

  /** Every update applies the code's own cutoff and finds the scanner in sync. */
  predicate UpdatesInSync(r: InternalRun) {
    r.Then? ==>
      && UpdatesInSync(r.before)
      && (r.step.Expire? ==> InSync(r.before.last) && r.step.cutoff == r.before.last.now - ALLOWABLE_LAG)
  }

  /** No bound on the time from the check to the update is needed if the scanner is still in sync then. */
  lemma {:induction false} AcceptedWhenInSync(slack: nat, r: InternalRun, at: nat, e: Events, origin: seq<Origin>)
    requires IsRun(slack, r) && UpdatesInSync(r) && slack <= r.last.spacing * SECOND && Clean(r.last)
    ensures ExpiryGuarded(slack, r) && Accepted(r, at, e, origin)
  {
    hide Accepted, Clean, Next;
    GuardedInSync(slack, r);
    GuardedAccepts(slack, r, at, e, origin);
  }

  lemma {:induction false} GuardedInSync(slack: nat, r: InternalRun)
    requires IsRun(slack, r) && UpdatesInSync(r) && slack <= r.last.spacing * SECOND
    ensures ExpiryGuarded(slack, r)
  {
    hide Next, InSync, SafeCutoff;
    if r.Then? {
      SameSpacing(slack, r.before.last, r.step, r.last);
      GuardedInSync(slack, r.before);
      if r.step.Expire? { SyncedCutoffIsSafe(slack, r.before.last); }
    }
  }

  // ---- Building runs ----

  const DEPOSIT: Address := Addr(seq(256, i => false))
  const MEMO := Uuid(seq(32, i => 0))
  const INCOME := ExternalIncome(1, 0, None, DEPOSIT, 5, [])

  lemma Grow(spacing: nat, slack: nat, delta: Time, r: InternalRun, p: Step, s: Sys) returns (r': InternalRun)
    requires DelayedRun(spacing, slack, delta, r) && Next(slack, r.last, p, s) && s.spacing == spacing
    requires RealisticStep(slack, r.last, p) && UpdateAsWritten(delta, r.last, p)
    ensures DelayedRun(spacing, slack, delta, r') && r'.last == s
    ensures ExpiryGuarded(slack, r) && !p.Expire? ==> ExpiryGuarded(slack, r')
  {
    hide Next, SafeCutoff;
    r' := Then(r, p, s);
  }

  /** What saving the next block does, when it holds internal events only. */
  lemma ScanNext(slack: nat, s: Sys, e: Events, origin: seq<Origin>) returns (b: BlockEvents, s': Sys)
    requires s.saved < |s.chain.gens| && Reconciled(s, s.saved, e, origin) && Admissible(s.t, e)
    requires e.extWithdrawals == [] && e.confirmations == [] && BlockKey(0, s.saved) !in s.t.blocks
    ensures Next(slack, s, Scan(s.saved, b, origin), s')
    ensures s' == s.(t := s'.t, saved := s.saved + 1)
    ensures BlockDone(s.t, e, s'.t.(blocks := s.t.blocks))
      && s'.t.blocks.Keys == s.t.blocks.Keys + {BlockKey(0, s.saved)}
  {
    hide Reconciled, Admissible, BlockDone, ApplyChanges;
    b := BlockEvents(e, BlockKey(0, s.saved), 0);
    InnerExact(s.t, e);
    assert ChangesOf(e) == InnerChanges(e);
    var u := ApplyChanges(s.t, InnerChanges(e)).value;
    BlockKeysKept(s.t, e, u);
    s' := s.(t := u.(blocks := u.blocks[b.key := b.genUtime]), saved := s.saved + 1);
    assert s.gaps + Between(s.saved, s.saved) == s.gaps;
    assert s'.t.(blocks := s.t.blocks) == u;
  }

  lemma BlockKeysKept(t: Tables, e: Events, u: Tables)
    requires BlockDone(t, e, u)
    ensures u.blocks == t.blocks
  {
    hide ReceivedBy, RowAfter;
  }

  const NOTHING := Chain([], map[], map[], map[], map[])
  const EMPTY := Tables(External(map[], map[]), map[], multiset{}, map[], map[])

  lemma FromStart(spacing: nat, slack: nat, delta: Time, s: Sys) returns (r: InternalRun)
    requires Init(s) && s.spacing == spacing
    ensures DelayedRun(spacing, slack, delta, r) && ExpiryGuarded(slack, r) && r.last == s
  {
    r := Start(s);
  }

  /** A deposit with one income in the only, saved, block. */
  lemma FirstIncome(spacing: nat, slack: nat, delta: Time, w: Wallets) returns (r: InternalRun)
    requires WalletsOk(w)
    ensures DelayedRun(spacing, slack, delta, r) && ExpiryGuarded(slack, r)
    ensures r.last == Sys(r.last.t, w, 0, spacing, 1, {}, None, map[], NOTHING.(gens := [0]), {}, {})
    ensures r.last.t.internals == map[] && r.last.t.intIncomes == map[] && r.last.t.blocks.Keys == {BlockKey(0, 0)}
    ensures r.last.t.extIncomes == multiset{INCOME}
  {
    hide ApplyBlock, Reconciled, Admissible, Mined, BlockDone, IsRun, Realistic, AsWritten;
    var s0 := Sys(EMPTY, w, 0, spacing, 0, {}, None, map[], NOTHING, {}, {});
    r := FromStart(spacing, slack, delta, s0);
    var s1 := s0.(chain := NOTHING.(gens := [0]));
    EmptyBlock(slack, s0, 0, s1);
    r := Grow(spacing, slack, delta, r, Mine(0, map[], map[], map[], map[]), s1);
    var e := NO_EVENTS.(extIncomes := [INCOME]);
    OnlyIncome(s1, e);
    var b, s2 := ScanNext(slack, s1, e, []);
    r := Grow(spacing, slack, delta, r, Scan(0, b, []), s2);
    AfterIncome(s1.t, e, s2.t.(blocks := s1.t.blocks));
  }

  lemma AfterIncome(t: Tables, e: Events, u: Tables)
    requires t == EMPTY && e == NO_EVENTS.(extIncomes := [INCOME]) && BlockDone(t, e, u)
    ensures u.internals == map[] && u.intIncomes == map[] && u.extIncomes == multiset{INCOME}
  {
    hide RowAfter;
    assert u.extIncomes == multiset{} + multiset([INCOME]);
    assert forall k :: k in u.intIncomes ==> k in t.intIncomes;
  }

  lemma OnlyIncome(s: Sys, e: Events)
    requires s.chain == NOTHING.(gens := [0]) && e == NO_EVENTS.(extIncomes := [INCOME]) && s.t == EMPTY && s.saved == 0
    ensures Reconciled(s, 0, e, []) && Admissible(s.t, e)
  {}

  /** A block in which nothing of ours happens. */
  lemma EmptyBlock(slack: nat, s: Sys, gen: Time, s': Sys)
    requires gen % SECOND == 0 && gen <= s.now
    requires |s.chain.gens| > 0 ==> s.chain.gens[|s.chain.gens| - 1] + s.spacing * SECOND <= gen
    requires s' == s.(chain := s.chain.(gens := s.chain.gens + [gen]))
    ensures Next(slack, s, Mine(gen, map[], map[], map[], map[]), s')
    ensures RealisticBlock(s, gen, map[], map[])
  {
    hide Mined;
    StrangersMined(s, gen, map[]);
    assert s.chain.forged + map[] == s.chain.forged;
  }

  lemma StrangersMined(s: Sys, gen: Time, forged: map<nat, Forgery>)
    requires gen % SECOND == 0
    requires |s.chain.gens| > 0 ==> s.chain.gens[|s.chain.gens| - 1] + s.spacing * SECOND <= gen
    requires forall id :: id in forged ==> id !in s.chain.forged && forged[id].block == |s.chain.gens|
    ensures Mined(s, gen, map[], map[], map[], forged,
                  s.chain.(gens := s.chain.gens + [gen], forged := s.chain.forged + forged))
  {
    hide OrderAllowed, LeaveAllowed, ArrivalAllowed;
    var c := s.chain;
    assert c.orders + map[] == c.orders && c.leaves + map[] == c.leaves && c.arrivals + map[] == c.arrivals;
  }

  // ---- A message that outlives its row ----

  const TASK := InternalTask(DEPOSIT, 0, 1, Ton)
  const OWN := Departure(MEMO, 2)

  /** If more is lost than the spacing, a row fails while its message can still run in the next block. The row is saved
    * before the sync check or, when blocks are far apart, after it. */
  lemma LateMessage(spacing: nat, slack: nat, delta: Time)
    returns (r: InternalRun, at: nat, e: Events, origin: seq<Origin>)
    requires delta >= 0 && delta + slack > spacing * SECOND
    ensures DelayedRun(spacing, slack, delta, r) && Clean(r.last)
    ensures !Accepted(r, at, e, origin)
  {
    hide DelayedRun, ApplyBlock, ApplyChanges, Reconciled, TtlAt, Mined;
    var gap := spacing * SECOND;
    var gen := gap + (slack / SECOND + 51) * SECOND;
    var savedAt := gen + gap - slack - LIFETIME;
    TtlOfLast(savedAt, slack, 2 * spacing + slack / SECOND + 51);
    r := Picked(spacing, slack, delta);
    if savedAt <= gen + ALLOWABLE_LAG {
      r := LateRow(spacing, slack, delta, r, savedAt);
      r := Checked(spacing, slack, delta, r, gen);
    } else {
      r := Checked(spacing, slack, delta, r, gen);
      r := LateRow(spacing, slack, delta, r, savedAt);
    }
    r := FailedRow(spacing, slack, delta, r, savedAt, gen);
    var ttl := gen + gap;
    r := TickTo(spacing, slack, delta, r, gen + ALLOWABLE_LAG + delta + gap);
    var s := r.last;
    var leaves := map[OWN := Leave(2, 5, true)];
    var s' := s.(chain := NOTHING.(gens := [0, gen, ttl], leaves := leaves));
    LateLeave(slack, s, s', gen, ttl, leaves);
    r := Grow(spacing, slack, delta, r, Mine(ttl, map[], leaves, map[], map[]), s');
    e, origin := RejectedBlock(s', leaves);
    at := 2;
  }

  lemma TtlOfLast(at: Time, slack: nat, n: nat)
    requires at + slack + LIFETIME == n * SECOND
    ensures TtlAt(at + slack) == n * SECOND
  {}

  lemma TickTo(spacing: nat, slack: nat, delta: Time, r: InternalRun, later: Time) returns (r': InternalRun)
    requires DelayedRun(spacing, slack, delta, r) && r.last.now <= later
    ensures DelayedRun(spacing, slack, delta, r') && r'.last == r.last.(now := later)
    ensures ExpiryGuarded(slack, r) ==> ExpiryGuarded(slack, r')
  {
    hide IsRun, Realistic, AsWritten;
    r' := Grow(spacing, slack, delta, r, Tick(later), r.last.(now := later));
  }

  /** The deposit's task is picked at once. */
  lemma Picked(spacing: nat, slack: nat, delta: Time) returns (r: InternalRun)
    ensures DelayedRun(spacing, slack, delta, r)
    ensures r.last == Sys(r.last.t, r.last.wallets, 0, spacing, 1, {}, None, map[], NOTHING.(gens := [0]), {}, {TASK})
    ensures r.last.t.internals == map[] && r.last.t.blocks.Keys == {BlockKey(0, 0)}
  {
    hide DelayedRun, TonQuery, JettonQuery;
    r := FirstIncome(spacing, slack, delta, Wallets(map[], map[0 := TonWallet(DEPOSIT, TonDeposit)]));
    TonDepositDue(DbOf(r.last));
    r := Grow(spacing, slack, delta, r, PickTon({TASK}), r.last.(pickedTon := {TASK}));
  }

  function RowAt(at: Time, failed: bool): IntRow {
    IntRow(Addr(seq(256, i => false)), 1, at + LIFETIME, None, None, 0, failed)
  }

  /** The task is saved at `at`; its message is built `slack` later. */
  lemma LateRow(spacing: nat, slack: nat, delta: Time, r: InternalRun, at: Time) returns (r': InternalRun)
    requires DelayedRun(spacing, slack, delta, r) && r.last.now <= at && r.last.pickedTon == {TASK}
    requires r.last.spacing == spacing
    requires r.last.t.internals == map[] && r.last.msgs == map[]
    ensures DelayedRun(spacing, slack, delta, r')
    ensures r'.last == r.last.(now := at, t := r.last.t.(internals := map[MEMO := RowAt(at, false)]), pickedTon := {},
                               msgs := map[MEMO := Message(1, at, TtlAt(at + slack), true)])
  {
    hide DelayedRun, TonQuery, JettonQuery, TtlAt;
    r' := TickTo(spacing, slack, delta, r, at);
    var s := r'.last;
    assert BuiltAfter(s, slack, slack, TtlAt(at + slack));
    TtlBound(at + slack);
    assert s.pickedTon - {TASK} == {};
    r' := Grow(spacing, slack, delta, r', Save(TASK, true, MEMO, at + LIFETIME, TtlAt(at + slack)),
               s.(t := s.t.(internals := map[MEMO := RowAt(at, false)]),
                  msgs := map[MEMO := Message(1, at, TtlAt(at + slack), true)], pickedTon := {}));
  }

  lemma TtlBound(at: Time)
    ensures TtlAt(at) <= at + LIFETIME
  {}

  lemma TonDepositDue(db: Db)
    requires db == Db(multiset{INCOME}, map[], Wallets(map[], map[0 := TonWallet(DEPOSIT, TonDeposit)]))
    ensures TASK in TonQuery(db)
  {
    hide TonQuery;
    TonQueryRefines(db, TASK);
    OneIncome(db);
  }

  lemma OneIncome(db: Db)
    requires db.incomes == multiset{INCOME}
    ensures IncomeLts(db, DEPOSIT) == {1}
  {
    assert INCOME in db.incomes;
  }

  /** One more block is saved, and the sync check passes at the last moment. */
  lemma Checked(spacing: nat, slack: nat, delta: Time, r: InternalRun, gen: Time) returns (r': InternalRun)
    requires DelayedRun(spacing, slack, delta, r)
    requires r.last.now <= gen + ALLOWABLE_LAG && gen % SECOND == 0 && spacing * SECOND <= gen
    requires r.last.saved == 1 && r.last.chain == NOTHING.(gens := [0]) && r.last.t.blocks.Keys == {BlockKey(0, 0)}
    ensures DelayedRun(spacing, slack, delta, r')
    ensures r'.last == r.last.(t := r'.last.t, now := gen + ALLOWABLE_LAG, saved := 2,
                               chain := NOTHING.(gens := [0, gen]), checkedAt := Some(gen + ALLOWABLE_LAG))
    ensures r'.last.t.internals == r.last.t.internals
  {
    hide IsRun, Realistic, AsWritten, ApplyBlock, Reconciled, Admissible, BlockDone, Mined, InSync;
    r' := TickTo(spacing, slack, delta, r, gen + ALLOWABLE_LAG);
    var s := r'.last.(chain := NOTHING.(gens := [0, gen]));
    assert s.chain.gens == r'.last.chain.gens + [gen];
    EmptyBlock(slack, r'.last, gen, s);
    r' := Grow(spacing, slack, delta, r', Mine(gen, map[], map[], map[], map[]), s);
    NothingToDo(s, 1);
    var b, s2 := ScanNext(slack, s, NO_EVENTS, []);
    NothingDone(s.t, NO_EVENTS, s2.t.(blocks := s.t.blocks));
    r' := Grow(spacing, slack, delta, r', Scan(1, b, []), s2);
    assert InSync(s2) by { LastSaved(s2, gen); }
    r' := Grow(spacing, slack, delta, r', CheckSync, s2.(checkedAt := Some(s2.now)));
  }

  lemma LastSaved(s: Sys, gen: Time)
    requires s.chain.gens == [0, gen] && s.saved == 2 && s.now == gen + ALLOWABLE_LAG
    ensures InSync(s)
  {}

  /** The update comes `delta` after the check and fails the row. */
  lemma FailedRow(spacing: nat, slack: nat, delta: Time, r: InternalRun, at: Time, gen: Time) returns (r': InternalRun)
    requires DelayedRun(spacing, slack, delta, r) && at + LIFETIME < gen + delta
    requires r.last.now <= gen + ALLOWABLE_LAG + delta && r.last.checkedAt == Some(gen + ALLOWABLE_LAG)
    requires r.last.t.internals == map[MEMO := RowAt(at, false)]
    ensures DelayedRun(spacing, slack, delta, r')
    ensures r'.last == r.last.(t := r.last.t.(internals := map[MEMO := RowAt(at, true)]),
                               now := gen + ALLOWABLE_LAG + delta, checkedAt := None)
  {
    hide IsRun, Realistic, AsWritten;
    r' := TickTo(spacing, slack, delta, r, gen + ALLOWABLE_LAG + delta);
    var s := r'.last;
    var rows := ExpireInternal(s.t.internals, gen + delta);
    assert rows == map[MEMO := RowAt(at, true)];
    r' := Grow(spacing, slack, delta, r', Expire(gen + delta), s.(t := s.t.(internals := rows), checkedAt := None));
  }

  lemma NothingToDo(s: Sys, n: nat)
    requires s.chain.orders == map[] && s.chain.leaves == map[] && s.chain.arrivals == map[] && s.chain.forged == map[]
    ensures Reconciled(s, n, NO_EVENTS, []) && Admissible(s.t, NO_EVENTS)
  {}

  lemma NothingDone(t: Tables, e: Events, u: Tables)
    requires BlockDone(t, e, u) && e.sendings == [] && e.intWithdrawals == []
    ensures u.internals == t.internals && u.extIncomes == t.extIncomes + multiset(e.extIncomes)
  {
    hide ReceivedBy;
    NoSuchMemo();
    forall m | m in t.internals ensures u.internals[m] == t.internals[m] {
      assert RowAfter(t.internals[m], e, m) == t.internals[m];
    }
  }

  lemma NoSuchMemo()
    ensures forall m :: !FailsIn([], m)
  {}

  lemma LateLeave(slack: nat, s: Sys, s': Sys, saved: Time, ttl: Time, leaves: map<Departure, Leave>)
    requires leaves == map[OWN := Leave(2, 5, true)] && s.chain == NOTHING.(gens := [0, saved])
    requires s.msgs.Keys == {MEMO} && s.msgs[MEMO].ton && s.msgs[MEMO].since == 1 && s.msgs[MEMO].ttl == ttl
      && s.msgs[MEMO].savedAt <= ttl
    requires ttl % SECOND == 0 && saved + s.spacing * SECOND <= ttl <= s.now
    requires s' == s.(chain := NOTHING.(gens := [0, saved, ttl], leaves := leaves))
    ensures Next(slack, s, Mine(ttl, map[], leaves, map[], map[]), s')
    ensures RealisticBlock(s, ttl, map[], leaves)
  {
    hide JettonQuery, TonQuery, OrderAllowed, ArrivalAllowed;
    assert s'.chain.gens == s.chain.gens + [ttl] && s'.chain.leaves == s.chain.leaves + leaves;
    assert s.chain.orders + map[] == map[] && s.chain.arrivals + map[] == map[] && s.chain.forged + map[] == map[];
  }

  lemma RejectedBlock(s: Sys, leaves: map<Departure, Leave>) returns (e: Events, origin: seq<Origin>)
    requires leaves == map[OWN := Leave(2, 5, true)] && s.chain == NOTHING.(gens := s.chain.gens, leaves := leaves)
      && s.saved == 2
    requires MEMO in s.msgs && s.msgs[MEMO].ton && MEMO in s.t.internals && s.t.internals[MEMO].failed
    ensures Reconciled(s, s.saved, e, origin) && OwnBlock(s, s.saved) && ApplyChanges(s.t, InnerChanges(e)).Err?
  {
    hide ApplyChanges, InnerChanges, ParseUuid, PrintUuid;
    UuidRoundTrip(MEMO);
    var text := PrintUuid(MEMO);
    var c, w := SendingConfirmation(2, DEPOSIT, text), InternalWithdrawal(2, 0, DEPOSIT, 5, text, false);
    e := NO_EVENTS.(sendings := [c], intWithdrawals := [w]);
    origin := [Ours(OWN)];
    assert TonLeave(s, OWN) && SentIn(s, 2, MEMO);
    assert c in e.sendings && w in e.intWithdrawals && IsOf(w, OWN) && origin[0] == Ours(OWN);
    InnerExact(s.t, e);
    assert c == e.sendings[0];
  }
}
