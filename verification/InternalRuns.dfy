/** Internal withdrawals over whole runs: both processors pick and save tasks, deposits run the messages,
  * the scanner applies blocks and expiry fails stale rows, step by step over the tables.
  *
  * The chain is an environment. A TON message may run again and again until its TTL (a destroyed wallet forgets
  * its seqno), each time sending the deposit's balance. A jetton order leaves the hot wallet at most once before its
  * TTL and moves the jettons, or fails to, at most once and later. What has left arrives at most once.
  * Anyone may send a transfer request to a deposit's jetton wallet; it fails, and the scanner, which does not look
  * at the sender, reads it as one of ours that failed.
  *
  * The scanner takes headers in ascending order. A block whose events are rejected, or that cannot be read, is logged
  * and passed over; the next block that is saved leaves it behind as a gap. */
module InternalRuns {
  import opened Base
  import opened Ledger
  import opened BlockEffects
  import opened Runs
  import opened TaskQueries
  import opened Uuids

  datatype Message = Message(since: nat, savedAt: Time, ttl: Time, ton: bool)

  /** A transfer out of a deposit, identified by memo and logical time. */
  datatype Departure = Departure(memo: Uuid, lt: nat)

  datatype Order = Order(block: nat, lt: nat)
  datatype Leave = Leave(block: nat, amount: nat, ok: bool)
  datatype Arrival = Arrival(block: nat, lt: nat)

  /** A stranger's failed transfer request, with whatever comment. */
  datatype Forgery = Forgery(block: nat, memo: Text, lt: nat, amount: nat)

  datatype Chain = Chain(
    gens: seq<Time>,
    orders: map<Uuid, Order>,
    leaves: map<Departure, Leave>,
    arrivals: map<Departure, Arrival>,
    forged: map<nat, Forgery>)

  /** Where a withdrawal event comes from. */
  datatype Origin = Ours(departure: Departure) | Strangers(id: nat)

  datatype Sys = Sys(
    t: Tables,
    wallets: Wallets,
    now: Time,
    spacing: nat,                   // least seconds between successive blocks
    saved: nat,                     // one past the greatest saved block number
    gaps: set<nat>,                 // smaller numbers that were passed over
    checkedAt: Option<Time>,        // when the expiry processor last passed its sync check
    msgs: map<Uuid, Message>,
    chain: Chain,
    picked: set<InternalTask>,      // selected by the withdrawal processor, not saved yet
    pickedTon: set<InternalTask>)   // the same for the TON processor

  datatype Step =
    | PickJetton(tasks: set<InternalTask>, excluded: set<Address>)
    | PickTon(tonTasks: set<InternalTask>)
    | Save(task: InternalTask, ton: bool, memo: Uuid, expiredAt: Time, ttl: Time)
    | Drop(kept: set<InternalTask>, keptTon: set<InternalTask>)
    | Tick(later: Time)
    | Mine(gen: Time, orders: map<Uuid, Order>, leaves: map<Departure, Leave>, arrivals: map<Departure, Arrival>,
           forged: map<nat, Forgery>)
    | Scan(at: nat, block: BlockEvents, origin: seq<Origin>)
    | CheckSync
    | Expire(cutoff: Time)

  predicate WalletsOk(w: Wallets) {
    && (forall s :: s in w.ton ==> w.ton[s].address !in w.jetton)
    && forall r, s :: r in w.ton && s in w.ton && w.ton[r].address == w.ton[s].address ==> r == s
  }

  ghost predicate Init(s: Sys) {
    && WalletsOk(s.wallets) && s.t.internals == map[] && s.t.intIncomes == map[]
    && s.saved == 0 && s.gaps == {} && s.checkedAt == None && s.msgs == map[]
    && s.chain == Chain([], map[], map[], map[], map[])
    && s.picked == {} && s.pickedTon == {}
  }

  function DbOf(s: Sys): Db { Db(s.t.extIncomes, s.t.internals, s.wallets) }

  // ---- What the scanner reads in a block ----

  predicate IsOf(w: InternalWithdrawal, k: Departure) { ParseUuid(w.memo) == Some(k.memo) && w.lt == k.lt }

  ghost predicate SentIn(s: Sys, n: nat, m: Uuid) {
    || (m in s.chain.orders && s.chain.orders[m].block == n)
    || exists k :: TonLeave(s, k) && k.memo == m && s.chain.leaves[k].block == n
  }

  predicate TonLeave(s: Sys, k: Departure) {
    k in s.chain.leaves && k.memo in s.msgs && s.msgs[k.memo].ton
  }

  predicate IncomeOf(s: Sys, n: nat, k: Departure, i: InternalIncome) {
    && k in s.chain.arrivals && s.chain.arrivals[k].block == n && k in s.chain.leaves
    && ParseUuid(i.memo) == Some(k.memo) && i.lt == s.chain.arrivals[k].lt && i.amount == s.chain.leaves[k].amount
  }

  predicate ComesFrom(s: Sys, n: nat, w: InternalWithdrawal, o: Origin) {
    match o
    case Ours(k) =>
      IsOf(w, k) && k in s.chain.leaves && w.amount >= 0
        && s.chain.leaves[k] == Leave(n, w.amount, !w.isFailed)
    case Strangers(id) =>
      w.isFailed && id in s.chain.forged && w.amount >= 0 && s.chain.forged[id] == Forgery(n, w.memo, w.lt, w.amount)
  }

  predicate OrderedOrigins(origin: seq<Origin>) {
    forall i, j :: 0 <= i < j < |origin| ==> origin[i] != origin[j]
  }

  /** The scanner's yield for block `n`: each confirmation, departure, forgery and arrival of the block once, the
    * departures of a memo in the order of their times, since transactions are sorted. */
  ghost predicate Reconciled(s: Sys, n: nat, e: Events, origin: seq<Origin>) {
    && (forall c :: c in e.sendings ==> ParseUuid(c.memo).Some? && SentIn(s, n, ParseUuid(c.memo).value))
    && (forall m :: SentIn(s, n, m) ==> SendsIn(e.sendings, m))
    && WithdrawalsReconciled(s, n, e.intWithdrawals, origin)
    && DistinctIncomes(e.intIncomes)
    && (forall i :: i in e.intIncomes ==> exists k :: IncomeOf(s, n, k, i))
    && forall k :: k in s.chain.arrivals && s.chain.arrivals[k].block == n ==>
         exists i :: i in e.intIncomes && IncomeOf(s, n, k, i)
  }

  ghost predicate WithdrawalsReconciled(s: Sys, n: nat, ws: seq<InternalWithdrawal>, origin: seq<Origin>) {
    && |origin| == |ws| && OrderedOrigins(origin) && GainsInOrder(ws)
    && (forall i :: 0 <= i < |ws| ==> ComesFrom(s, n, ws[i], origin[i]))
    && (forall k :: k in s.chain.leaves && s.chain.leaves[k].block == n ==> Ours(k) in origin)
    && forall id :: id in s.chain.forged && s.chain.forged[id].block == n ==> Strangers(id) in origin
  }

  /** No stranger meddles in the block. */
  predicate OwnBlock(s: Sys, n: nat) {
    forall id :: id in s.chain.forged ==> s.chain.forged[id].block != n
  }

  // ---- Steps ----

  predicate OrderAllowed(s: Sys, gen: Time, m: Uuid, o: Order) {
    m in s.msgs && !s.msgs[m].ton && m !in s.chain.orders && gen <= s.msgs[m].ttl && o.block == |s.chain.gens|
  }

  ghost predicate LeaveAllowed(s: Sys, gen: Time, orders: map<Uuid, Order>, leaves: map<Departure, Leave>, k: Departure)
    requires k in leaves
  {
    && k.memo in s.msgs && k !in s.chain.leaves && k.lt >= s.msgs[k.memo].since && leaves[k].block == |s.chain.gens|
    && (forall l :: l in s.chain.leaves && l.memo == k.memo ==> l.lt < k.lt)
    && if s.msgs[k.memo].ton then leaves[k].ok && gen <= s.msgs[k.memo].ttl
       else
         && (k.memo in s.chain.orders || k.memo in orders)
         && (forall l :: l in s.chain.leaves ==> l.memo != k.memo)
         && forall l :: l in leaves && l.memo == k.memo ==> l == k
  }

  predicate ArrivalAllowed(s: Sys, leaves: map<Departure, Leave>, k: Departure, a: Arrival) {
    && k !in s.chain.arrivals && k.memo in s.msgs && (s.msgs[k.memo].ton ==> a.lt == k.lt) && a.block == |s.chain.gens|
    && ((k in s.chain.leaves && s.chain.leaves[k].ok) || (k in leaves && leaves[k].ok))
  }

  ghost predicate Mined(s: Sys, gen: Time, orders: map<Uuid, Order>, leaves: map<Departure, Leave>,
                        arrivals: map<Departure, Arrival>, forged: map<nat, Forgery>, c: Chain)
  {
    var n := |s.chain.gens|;
    && gen % SECOND == 0 && (n > 0 ==> s.chain.gens[n - 1] + s.spacing * SECOND <= gen)
    && (forall m :: m in orders ==> OrderAllowed(s, gen, m, orders[m]))
    && (forall k :: k in leaves ==> LeaveAllowed(s, gen, orders, leaves, k))
    && (forall k :: k in arrivals ==> ArrivalAllowed(s, leaves, k, arrivals[k]))
    && (forall id :: id in forged ==> id !in s.chain.forged && forged[id].block == n)
    && c == Chain(s.chain.gens + [gen], s.chain.orders + orders, s.chain.leaves + leaves, s.chain.arrivals + arrivals,
                  s.chain.forged + forged)
  }

  predicate InSync(s: Sys) {
    0 < s.saved <= |s.chain.gens| && s.now - s.chain.gens[s.saved - 1] <= ALLOWABLE_LAG
  }

  /** `slack` bounds how much later than the recorded expiry a message may really expire. */
  ghost predicate Next(slack: nat, s: Sys, p: Step, s': Sys) {
    match p
    case PickJetton(tasks, excluded) =>
      s.picked == {} && tasks <= JettonQuery(DbOf(s), excluded) && s' == s.(picked := tasks)
    case PickTon(tasks) =>
      s.pickedTon == {} && tasks <= TonQuery(DbOf(s)) && s' == s.(pickedTon := tasks)
    case Save(task, ton, memo, expiredAt, ttl) =>
      && task in (if ton then s.pickedTon else s.picked)
      && ttl <= expiredAt + slack
      && (match SaveTask(s.t.internals, task, expiredAt, memo)
          case Err(_) => s' == s.(picked := {}, pickedTon := {})
          case Ok(rows) =>
            s' == s.(t := s.t.(internals := rows), msgs := s.msgs[memo := Message(task.lt, s.now, ttl, ton)],
                     picked := if ton then s.picked else s.picked - {task},
                     pickedTon := if ton then s.pickedTon - {task} else s.pickedTon))
    case Drop(kept, keptTon) =>
      kept <= s.picked && keptTon <= s.pickedTon && s' == s.(picked := kept, pickedTon := keptTon)
    case Tick(later) => later >= s.now && s' == s.(now := later)
    case Mine(gen, orders, leaves, arrivals, forged) =>
      Mined(s, gen, orders, leaves, arrivals, forged, s'.chain) && s' == s.(chain := s'.chain)
    case Scan(at, b, origin) =>
      && s.saved <= at < |s.chain.gens| && Reconciled(s, at, b.events, origin)
      && (match ApplyBlock(s.t, b)
          case Ok(t) => s' == s.(t := t, saved := at + 1, gaps := s.gaps + Between(s.saved, at))
          case Err(_) => s' == s)
    case CheckSync => InSync(s) && s' == s.(checkedAt := Some(s.now))
    case Expire(cutoff) =>
      s.checkedAt.Some? && s' == s.(t := s.t.(internals := ExpireInternal(s.t.internals, cutoff)), checkedAt := None)
  }

  // ---- The invariant ----

  ghost predicate ChainInv(s: Sys) {
    var c := s.chain;
    && s.saved <= |c.gens|
    && (forall i, j :: 0 <= i < j < |c.gens| ==> c.gens[i] + s.spacing * SECOND <= c.gens[j])
    && (forall m :: m in c.orders ==> OrderOk(s, m))
    && (forall k :: k in c.leaves ==> LeaveOk(s, k))
    && (forall k :: k in c.arrivals ==> ArrivalOk(s, k))
    && (forall k, l :: k in c.leaves && l in c.leaves && k.memo == l.memo && !s.msgs[k.memo].ton ==> k == l)
    && forall k, l :: k in c.leaves && l in c.leaves && k.memo == l.memo && c.leaves[k].block < c.leaves[l].block ==>
         k.lt < l.lt
  }

  predicate OrderOk(s: Sys, m: Uuid)
    requires m in s.chain.orders
  {
    var o := s.chain.orders[m];
    m in s.msgs && !s.msgs[m].ton && o.block < |s.chain.gens| && s.chain.gens[o.block] <= s.msgs[m].ttl
  }

  predicate LeaveOk(s: Sys, k: Departure)
    requires k in s.chain.leaves
  {
    var l := s.chain.leaves[k];
    && k.memo in s.msgs && l.block < |s.chain.gens| && k.lt >= s.msgs[k.memo].since
    && if s.msgs[k.memo].ton then l.ok && s.chain.gens[l.block] <= s.msgs[k.memo].ttl
       else k.memo in s.chain.orders && s.chain.orders[k.memo].block <= l.block
  }

  predicate ArrivalOk(s: Sys, k: Departure)
    requires k in s.chain.arrivals
  {
    var a := s.chain.arrivals[k];
    && k in s.chain.leaves && k.memo in s.msgs && s.chain.leaves[k].ok
    && s.chain.leaves[k].block <= a.block < |s.chain.gens|
    && (s.msgs[k.memo].ton ==> a.lt == k.lt)
  }

  /** The scanner has saved a confirmation of the memo's sending. */
  ghost predicate SentSeen(s: Sys, m: Uuid) {
    || (m in s.chain.orders && s.chain.orders[m].block < s.saved)
    || exists k :: TonLeave(s, k) && k.memo == m && s.chain.leaves[k].block < s.saved
  }

  /** What left the deposit under a memo in the saved blocks. */
  ghost function SeenLeaves(s: Sys, m: Uuid): map<nat, int> {
    map k | k in s.chain.leaves && k.memo == m && s.chain.leaves[k].block < s.saved && s.chain.leaves[k].ok
      :: k.lt := s.chain.leaves[k].amount
  }

  predicate FailSeen(s: Sys, m: Uuid) {
    exists k :: k in s.chain.leaves && k.memo == m && s.chain.leaves[k].block < s.saved && !s.chain.leaves[k].ok
  }

  /** Nothing happened under the memo, and nothing can any more. */
  predicate Dead(s: Sys, m: Uuid) {
    && m in s.msgs && m !in s.chain.orders && (forall k :: k in s.chain.leaves ==> k.memo != m)
    && 0 < s.saved <= |s.chain.gens| && s.msgs[m].ttl < s.chain.gens[s.saved - 1] + s.spacing * SECOND
  }

  ghost predicate RowInv(slack: nat, s: Sys, m: Uuid)
    requires m in s.t.internals
  {
    var r := s.t.internals[m];
    var seen := SeenLeaves(s, m);
    && m in s.msgs && r.sinceLt == s.msgs[m].since && s.msgs[m].ttl <= r.expiredAt + slack
    && (r.sendingLt.Some? <==> SentSeen(s, m))
    && r.finishLt == MaxOf(seen.Keys)
    && r.amount == Total(seen)
    && (FailSeen(s, m) ==> r.failed)
    && (r.failed ==> Dead(s, m) || FailSeen(s, m))
  }

  ghost predicate RowsInv(slack: nat, s: Sys) {
    s.msgs.Keys == s.t.internals.Keys && forall m :: m in s.t.internals ==> RowInv(slack, s, m)
  }

  predicate SeenArrival(s: Sys, k: Departure, key: IncomeKey) {
    && k in s.chain.arrivals && s.chain.arrivals[k].block < s.saved && k in s.chain.leaves
    && k.memo == key.memo && s.chain.arrivals[k].lt == key.lt
    && key in s.t.intIncomes && s.t.intIncomes[key].amount == s.chain.leaves[k].amount
  }

  /** The hot side lists exactly the arrivals in saved blocks. */
  ghost predicate HotInv(s: Sys) {
    && (forall key :: key in s.t.intIncomes ==> exists k :: SeenArrival(s, k, key))
    && forall k :: k in s.chain.arrivals && s.chain.arrivals[k].block < s.saved ==>
         SeenArrival(s, k, IncomeKey(k.memo, s.chain.arrivals[k].lt))
  }

  /** Every live withdrawal of the task's deposit has finished and started earlier. */
  ghost predicate Startable(rows: map<Uuid, IntRow>, t: InternalTask) {
    forall m :: Live(rows, m, t.deposit) ==> rows[m].finishLt.Some? && rows[m].sinceLt < t.lt
  }

  ghost predicate PickInv(s: Sys) {
    && (forall t :: t in s.picked + s.pickedTon ==> Startable(s.t.internals, t))
    && (forall t :: t in s.picked ==> t.deposit in s.wallets.jetton)
    && (forall t :: t in s.pickedTon ==> t.deposit !in s.wallets.jetton)
    && (forall t, u :: t in s.picked && u in s.picked && t.deposit == u.deposit ==> t == u)
    && forall t, u :: t in s.pickedTon && u in s.pickedTon && t.deposit == u.deposit ==> t == u
  }

  predicate CheckInv(s: Sys) {
    s.checkedAt.Some? ==>
      s.checkedAt.value <= s.now && SafeCutoff(0, s, s.checkedAt.value - ALLOWABLE_LAG + s.spacing * SECOND)
  }

  ghost predicate Inv(slack: nat, s: Sys) {
    && WalletsOk(s.wallets) && ChainInv(s) && RowsInv(slack, s) && HotInv(s) && Ordered(s.t.internals) && PickInv(s)
    && CheckInv(s)
  }

  // ---- Runs ----

  type InternalRun = Run<Sys, Step>

  ghost predicate IsRun(slack: nat, r: InternalRun) {
    match r
    case Start(s) => Init(s)
    case Then(b, p, s) => IsRun(slack, b) && Next(slack, b.last, p, s)
  }

  /** Every expiry cutoff, with the slack, is no later than the next block after the last saved one can be. */
  predicate ExpiryGuarded(slack: nat, r: InternalRun) {
    r.Then? ==> ExpiryGuarded(slack, r.before) && (r.step.Expire? ==> SafeCutoff(slack, r.before.last, r.step.cutoff))
  }

  predicate SafeCutoff(slack: nat, s: Sys, cutoff: Time) {
    0 < s.saved <= |s.chain.gens| && cutoff + slack <= s.chain.gens[s.saved - 1] + s.spacing * SECOND
  }

  /** No saved block holds a stranger's request. */
  predicate Unforged(s: Sys) {
    forall id :: id in s.chain.forged ==> s.chain.forged[id].block >= s.saved || s.chain.forged[id].block in s.gaps
  }

  /** No block that was passed over holds anything of ours. */
  predicate Lossless(s: Sys) {
    && (forall m :: m in s.chain.orders ==> s.chain.orders[m].block !in s.gaps)
    && (forall k :: k in s.chain.leaves ==> s.chain.leaves[k].block !in s.gaps)
    && forall k :: k in s.chain.arrivals ==> s.chain.arrivals[k].block !in s.gaps
  }

  predicate Clean(s: Sys) { Unforged(s) && Lossless(s) }
}
