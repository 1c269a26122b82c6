/** Service withdrawals over whole runs. The withdrawal processor handles requests that are not filled, the TON
  * processor sends the jettons of filled ones; the two interleave and either may crash at any point. The chain runs a
  * deposit's message whenever the deposit has TON, again and again until the TTL, since running it destroys the
  * wallet. */
module Service {
  import opened Base
  import opened Ledger
  import opened Batch
  import opened Runs

  /** The jettons of a request on their way: sent with mode 128 + 32, which destroys the wallet. */
  datatype Message = Message(deposit: Address, amount: nat, ttl: Time)

  datatype Execution = Execution(memo: Uuid, deposit: Address, amount: nat, gen: Time)

  datatype Sys = Sys(
    rows: map<Uuid, ServiceRow>,
    hot: set<ServiceTask>,              // selected by the withdrawal processor, not handled yet
    built: set<ServiceWithdrawal>,      // handled, to be stored when the batch is persisted
    deposit: set<ServiceTask>,          // selected by the TON processor
    sending: set<ServiceTask>,          // stored by the TON processor, to be sent
    updates: map<Uuid, nat>,            // how often each request was updated
    fills: map<Uuid, nat>,              // the amount recorded when a deposit was filled
    chain: Chain)

  datatype Chain = Chain(
    msgs: map<Uuid, Message>,           // what was sent, by request
    head: Time,                         // generation time of the last block
    funded: set<Address>,               // deposits that can run a message
    fundings: map<Address, nat>,        // how often each deposit got TON
    runs: seq<Execution>)

  datatype Step =
    | Create(memo: Uuid, payer: Address, master: Option<Address>)
    | PickHot(tasks: set<ServiceTask>)
    | Skip(skipped: ServiceTask)
    | Handle(task: ServiceTask, world: World, n: nat, now: Time)
    | Store(done: ServiceWithdrawal, ttl: Time)
    | PickDeposit(filledTasks: set<ServiceTask>)
    | Record(recorded: ServiceTask, at: Time)
    | Send(sent: ServiceTask, builtAt: Time)
    | Drop(dropped: ServiceTask)
    | CrashHot
    | CrashDeposit
    | Fund(address: Address)
    | Block(gen: Time)
    | Execute(ran: Uuid)

  ghost predicate Init(s: Sys) {
    s == Sys(map[], {}, {}, {}, {}, map[], map[], Chain(map[], 0, {}, map[], []))
  }

  /** A row of the hot query, its jetton amount not selected. */
  predicate OpenTask(rows: map<Uuid, ServiceRow>, t: ServiceTask) {
    && t.memo in rows && !rows[t.memo].processed && !rows[t.memo].filled
    && t.deposit == rows[t.memo].payer && t.master == rows[t.memo].master
  }

  /** A row of the deposit query. */
  predicate FilledTask(rows: map<Uuid, ServiceRow>, t: ServiceTask) {
    && t.memo in rows && !rows[t.memo].processed && rows[t.memo].filled
    && t.deposit == rows[t.memo].payer && t.master == rows[t.memo].master && t.jettonAmount == rows[t.memo].jettonAmount
  }

  /** DISTINCT ON the deposit address. */
  predicate DistinctTasks(ts: set<ServiceTask>) {
    forall t, u :: t in ts && u in ts && t.deposit == u.deposit ==> t == u
  }

  function Updated(s: Sys, t: ServiceTask, tonAmount: nat, expiredAt: Time, filled: bool): Sys {
    s.(rows := UpdateService(s.rows, t, tonAmount, expiredAt, filled),
       updates := s.updates[t.memo := 1 + if t.memo in s.updates then s.updates[t.memo] else 0],
       fills := if filled then s.fills[t.memo := t.jettonAmount] else s.fills)
  }

  ghost predicate Next(s: Sys, p: Step, s': Sys) {
    match p
    case Create(m, payer, master) =>
      m !in s.rows && s' == s.(rows := s.rows[m := ServiceRow(payer, master, 0, 0, 0, false, false)])
    case PickHot(tasks) =>
      && s.hot == {} && s.built == {} && DistinctTasks(tasks)
      && (forall t :: t in tasks ==> OpenTask(s.rows, t) && t.jettonAmount == 0)
      && s' == s.(hot := tasks)
    case Skip(t) => t in s.hot && s' == s.(hot := s.hot - {t})
    case Handle(t, w, n, now) =>
      && t in s.hot && t.deposit in w.book && (w.book[t.deposit] == TonDeposit ==> t.master.Some?)
      && var (m, x) := BuildService(w, t, n);
         if m.None? then s' == Updated(s.(hot := s.hot - {t}), x.task, x.tonAmount, now, x.filled)
         else s' == s.(hot := s.hot - {t}, built := s.built + {x})
    case Store(x, ttl) =>
      s.hot == {} && x in s.built && s' == Updated(s.(built := s.built - {x}), x.task, x.tonAmount, ttl, x.filled)
    case PickDeposit(tasks) =>
      && s.deposit == {} && DistinctTasks(tasks)
      && (forall t :: t in tasks ==> FilledTask(s.rows, t))
      && s' == s.(deposit := tasks)
    case Record(t, at) =>
      && t in s.deposit && s.sending == {}
      && s' == Updated(s.(deposit := s.deposit - {t}, sending := {t}), t, 0, at + LIFETIME, false)
    case Send(t, builtAt) =>
      && t in s.sending
      && s' == s.(sending := s.sending - {t},
                  chain := s.chain.(msgs := s.chain.msgs[t.memo := Message(t.deposit, t.jettonAmount, TtlAt(builtAt))]))
    case Drop(t) => t in s.deposit + s.sending && s' == s.(deposit := s.deposit - {t}, sending := s.sending - {t})
    case CrashHot => s' == s.(hot := {}, built := {})
    case CrashDeposit => s' == s.(deposit := {}, sending := {})
    case _ => ChainNext(s.chain, p, s'.chain) && s' == s.(chain := s'.chain)
  }

  /** The chain runs a message as often as its deposit has TON again, until the TTL. */
  predicate ChainNext(c: Chain, p: Step, c': Chain) {
    match p
    case Fund(d) => c' == c.(funded := c.funded + {d}, fundings := c.fundings[d := FundingsOf(c, d) + 1])
    case Block(gen) => gen >= c.head && c' == c.(head := gen)
    case Execute(m) =>
      && m in c.msgs && c.msgs[m].deposit in c.funded && c.head <= c.msgs[m].ttl
      && c' == c.(funded := c.funded - {c.msgs[m].deposit},
                  runs := c.runs + [Execution(m, c.msgs[m].deposit, c.msgs[m].amount, c.head)])
    case _ => false
  }

  function FundingsOf(c: Chain, d: Address): nat { if d in c.fundings then c.fundings[d] else 0 }

  // ---- The invariant ----

  /** Updates a request still needs at most: two when open, one when filled, none when processed. */
  function Rank(r: ServiceRow): nat {
    if r.processed then 0 else if r.filled then 1 else 2
  }

  function UpdatesOf(s: Sys, m: Uuid): nat { if m in s.updates then s.updates[m] else 0 }

  ghost predicate RowInv(s: Sys, m: Uuid)
    requires m in s.rows
  {
    var r := s.rows[m];
    && !(r.filled && r.processed)
    && UpdatesOf(s, m) + Rank(r) <= 2
    && (m in s.fills ==> r.filled || r.processed)
    && (r.filled ==> m in s.fills && s.fills[m] == r.jettonAmount)
    && (r.processed && m in s.fills ==> s.fills[m] == r.jettonAmount)
  }

  /** The deposit's part of the request is done, with this amount. */
  predicate Settled(s: Sys, m: Uuid, deposit: Address, amount: nat) {
    m in s.rows && s.rows[m].processed && s.rows[m].payer == deposit && m in s.fills && s.fills[m] == amount
  }

  ghost predicate OutInv(s: Sys) {
    && (forall t :: t in s.sending ==> Settled(s, t.memo, t.deposit, t.jettonAmount) && t.memo !in s.chain.msgs)
    && (forall t, u :: t in s.sending && u in s.sending && t.memo == u.memo ==> t == u)
    && forall m :: m in s.chain.msgs ==> Settled(s, m, s.chain.msgs[m].deposit, s.chain.msgs[m].amount)
  }

  predicate ExecutionInv(c: Chain, x: Execution) {
    x.memo in c.msgs && x.deposit == c.msgs[x.memo].deposit && x.amount == c.msgs[x.memo].amount
      && x.gen <= c.msgs[x.memo].ttl
  }

  /** How often a deposit's wallet ran. */
  function RunsBy(xs: seq<Execution>, d: Address): nat {
    if xs == [] then 0 else RunsBy(xs[..|xs| - 1], d) + if xs[|xs| - 1].deposit == d then 1 else 0
  }

  predicate FundedInv(c: Chain, d: Address) {
    RunsBy(c.runs, d) + (if d in c.funded then 1 else 0) <= FundingsOf(c, d)
  }

  ghost predicate ChainInv(c: Chain) {
    (forall i :: 0 <= i < |c.runs| ==> ExecutionInv(c, c.runs[i])) && forall d :: FundedInv(c, d)
  }

  predicate BuiltOk(rows: map<Uuid, ServiceRow>, x: ServiceWithdrawal) {
    OpenTask(rows, x.task)
  }

  ghost predicate Inv(s: Sys) {
    && (forall m :: m in s.rows ==> RowInv(s, m))
    && (forall m :: m in s.fills ==> m in s.rows)
    && (forall m :: m in s.updates ==> m in s.rows)
    && OutInv(s) && ChainInv(s.chain)
    && (forall t :: t in s.hot ==> OpenTask(s.rows, t))
    && (forall x :: x in s.built ==> BuiltOk(s.rows, x))
    && (forall t :: t in s.deposit ==> FilledTask(s.rows, t))
    && (forall t, u :: t in s.hot && u in s.hot && t.memo == u.memo ==> t == u)
    && (forall x, y :: x in s.built && y in s.built && x.task.memo == y.task.memo ==> x == y)
    && (forall t, x :: t in s.hot && x in s.built ==> t.memo != x.task.memo)
    && (forall t, u :: t in s.deposit && u in s.deposit && t.memo == u.memo ==> t == u)
  }

  /** What a built withdrawal says of its request. */
  lemma BuiltTask(w: World, t: ServiceTask, n: nat)
    requires t.deposit in w.book && (w.book[t.deposit] == TonDeposit ==> t.master.Some?)
    ensures var x := BuildService(w, t, n).1;
      && x.task == t.(jettonAmount := x.task.jettonAmount)
      && (BuildService(w, t, n).0.None? ==> !x.filled)
      && (x.filled ==> w.book[t.deposit] == TonDeposit)
  {}

  lemma UpdateRow(s: Sys, t: ServiceTask, tonAmount: nat, expiredAt: Time, filled: bool)
    requires t.memo in s.rows && RowInv(s, t.memo) && !s.rows[t.memo].processed
    requires s.rows[t.memo].filled ==> !filled && t.jettonAmount == s.rows[t.memo].jettonAmount
    ensures RowInv(Updated(s, t, tonAmount, expiredAt, filled), t.memo)
    ensures Rank(Updated(s, t, tonAmount, expiredAt, filled).rows[t.memo]) < Rank(s.rows[t.memo])
  {}

  lemma UpdateKeepsOthers(s: Sys, t: ServiceTask, tonAmount: nat, expiredAt: Time, filled: bool)
    requires t.memo in s.rows && (forall m :: m in s.rows ==> RowInv(s, m)) && !s.rows[t.memo].processed
    requires s.rows[t.memo].filled ==> !filled && t.jettonAmount == s.rows[t.memo].jettonAmount
    ensures var u := Updated(s, t, tonAmount, expiredAt, filled);
      forall m :: m in u.rows ==> RowInv(u, m)
  {
    var u := Updated(s, t, tonAmount, expiredAt, filled);
    forall m | m in u.rows ensures RowInv(u, m) {
      if m == t.memo { UpdateRow(s, t, tonAmount, expiredAt, filled); } else { assert RowInv(s, m); }
    }
  }

  lemma UpdateKeepsInv(s: Sys, t: ServiceTask, tonAmount: nat, expiredAt: Time, filled: bool)
    requires Inv(s) && (OpenTask(s.rows, t) || (FilledTask(s.rows, t) && !filled))
    requires forall u :: u in s.hot || u in s.deposit ==> u.memo != t.memo
    requires forall x :: x in s.built ==> x.task.memo != t.memo
    ensures Inv(Updated(s, t, tonAmount, expiredAt, filled))
  {
    hide RowInv, ChainInv, OutInv;
    assert RowInv(s, t.memo);
    UpdateKeepsOthers(s, t, tonAmount, expiredAt, filled);
    var u := Updated(s, t, tonAmount, expiredAt, filled);
    UpdateKeepsOut(s, t, tonAmount, expiredAt, filled);
    forall x | x in u.built ensures BuiltOk(u.rows, x) { assert BuiltOk(s.rows, x); }
    forall x | x in u.hot ensures OpenTask(u.rows, x) { assert OpenTask(s.rows, x); }
    forall x | x in u.deposit ensures FilledTask(u.rows, x) { assert FilledTask(s.rows, x); }
  }

  lemma UpdateKeepsOut(s: Sys, t: ServiceTask, tonAmount: nat, expiredAt: Time, filled: bool)
    requires OutInv(s) && t.memo in s.rows && !s.rows[t.memo].processed
    ensures OutInv(Updated(s, t, tonAmount, expiredAt, filled))
  {
    var u := Updated(s, t, tonAmount, expiredAt, filled);
    forall m, d, amount | Settled(s, m, d, amount) ensures Settled(u, m, d, amount) {}
    forall t | t in u.sending ensures Settled(u, t.memo, t.deposit, t.jettonAmount) && t.memo !in u.chain.msgs {
      assert Settled(s, t.memo, t.deposit, t.jettonAmount);
    }
    forall m | m in u.chain.msgs ensures Settled(u, m, u.chain.msgs[m].deposit, u.chain.msgs[m].amount) {
      assert Settled(s, m, s.chain.msgs[m].deposit, s.chain.msgs[m].amount);
    }
  }

  lemma KeepsHandle(s: Sys, p: Step, s': Sys)
    requires Inv(s) && Next(s, p, s') && p.Handle?
    ensures Inv(s')
  {
    hide RowInv, OutInv, BuildService, Updated;
    var t := p.task;
    BuiltTask(p.world, t, p.n);
    var (m, x) := BuildService(p.world, t, p.n);
    var s1 := s.(hot := s.hot - {t});
    SmallerPicks(s, s1);
    assert OpenTask(s.rows, x.task);
    forall u | u in s1.hot ensures u.memo != t.memo {}
    if m.None? {
      NotInDeposit(s1, t);
      UpdateKeepsInv(s1, x.task, x.tonAmount, p.now, x.filled);
    } else {
      BuiltAdded(s1, x);
    }
  }

  lemma BuiltAdded(s: Sys, x: ServiceWithdrawal)
    requires Inv(s) && OpenTask(s.rows, x.task)
    requires (forall u :: u in s.hot ==> u.memo != x.task.memo) && forall y :: y in s.built ==>
      y.task.memo != x.task.memo
    ensures Inv(s.(built := s.built + {x}))
  {
    hide RowInv, OutInv;
    SameRows(s, s.(built := s.built + {x}));
  }

  /** Rows and histories alone. */
  lemma SameRows(s: Sys, s': Sys)
    requires s'.rows == s.rows && s'.fills == s.fills && s'.updates == s.updates
    requires s'.sending <= s.sending && s'.chain.msgs == s.chain.msgs
    ensures forall m :: m in s.rows && RowInv(s, m) ==> RowInv(s', m)
    ensures OutInv(s) ==> OutInv(s')
  {
    SameSettled(s, s');
  }

  lemma SameSettled(s: Sys, s': Sys)
    requires s'.rows == s.rows && s'.fills == s.fills
    ensures forall m, d, amount :: Settled(s, m, d, amount) <==> Settled(s', m, d, amount)
  {}

  lemma SmallerPicks(s: Sys, s': Sys)
    requires Inv(s) && s' == s.(hot := s'.hot, built := s'.built, deposit := s'.deposit, sending := s'.sending)
    requires s'.hot <= s.hot && s'.built <= s.built && s'.deposit <= s.deposit && s'.sending <= s.sending
    ensures Inv(s')
  {
    hide RowInv, OutInv;
    SameRows(s, s');
  }

  lemma NotInDeposit(s: Sys, t: ServiceTask)
    requires Inv(s) && OpenTask(s.rows, t)
    ensures forall u :: u in s.deposit ==> u.memo != t.memo
  {
    hide RowInv, OutInv;
    forall u | u in s.deposit ensures u.memo != t.memo { assert FilledTask(s.rows, u); }
  }

  lemma KeepsStore(s: Sys, p: Step, s': Sys)
    requires Inv(s) && Next(s, p, s') && p.Store?
    ensures Inv(s')
  {
    hide RowInv, OutInv, Updated;
    var x := p.done;
    var s1 := s.(built := s.built - {x});
    SmallerPicks(s, s1);
    assert BuiltOk(s.rows, x);
    NotInDeposit(s1, x.task);
    forall y | y in s1.built ensures y.task.memo != x.task.memo {}
    UpdateKeepsInv(s1, x.task, x.tonAmount, p.ttl, x.filled);
  }

  lemma KeepsRecord(s: Sys, p: Step, s': Sys)
    requires Inv(s) && Next(s, p, s') && p.Record?
    ensures Inv(s')
  {
    hide RowInv, Updated, OutInv, ChainInv;
    var t := p.recorded;
    var s1 := s.(deposit := s.deposit - {t});
    SmallerPicks(s, s1);
    assert FilledTask(s.rows, t) && RowInv(s, t.memo);
    forall u | u in s1.hot ensures u.memo != t.memo { assert OpenTask(s.rows, u); }
    forall x | x in s1.built ensures x.task.memo != t.memo { assert BuiltOk(s.rows, x); }
    forall u | u in s1.deposit ensures u.memo != t.memo {}
    UpdateKeepsInv(s1, t, 0, p.at + LIFETIME, false);
    var u := Updated(s1, t, 0, p.at + LIFETIME, false);
    RecordIsSettled(s1, t, p.at + LIFETIME);
    NowSending(s, t, p.at + LIFETIME, u);
    AddSending(u, t);
  }

  lemma NowSending(s: Sys, t: ServiceTask, expiredAt: Time, u: Sys)
    requires u == Updated(s.(deposit := s.deposit - {t}), t, 0, expiredAt, false)
    ensures Updated(s.(deposit := s.deposit - {t}, sending := {t}), t, 0, expiredAt, false) == u.(sending := {t})
    ensures u.chain == s.chain
  {}

  lemma RecordIsSettled(s: Sys, t: ServiceTask, expiredAt: Time)
    requires Inv(s) && FilledTask(s.rows, t)
    ensures Settled(Updated(s, t, 0, expiredAt, false), t.memo, t.deposit, t.jettonAmount) && t.memo !in s.chain.msgs
  {
    hide ChainInv;
    assert RowInv(s, t.memo);
    forall m | m in s.chain.msgs ensures m != t.memo {
      assert Settled(s, m, s.chain.msgs[m].deposit, s.chain.msgs[m].amount);
    }
  }

  lemma AddSending(s: Sys, t: ServiceTask)
    requires Inv(s) && Settled(s, t.memo, t.deposit, t.jettonAmount) && t.memo !in s.chain.msgs
    ensures Inv(s.(sending := {t}))
  {
    hide RowInv, ChainInv;
    var u := s.(sending := {t});
    forall m | m in u.rows ensures RowInv(u, m) { assert RowInv(s, m); SameRow(s, u, m); }
    forall m | m in u.chain.msgs ensures Settled(u, m, u.chain.msgs[m].deposit, u.chain.msgs[m].amount) {
      assert Settled(s, m, s.chain.msgs[m].deposit, s.chain.msgs[m].amount);
    }
  }

  lemma KeepsSend(s: Sys, p: Step, s': Sys)
    requires Inv(s) && Next(s, p, s') && p.Send?
    ensures Inv(s')
  {
    hide RowInv, ChainInv, Settled, TtlAt;
    var t := p.sent;
    assert Settled(s, t.memo, t.deposit, t.jettonAmount);
    SameSettled(s, s');
    forall m | m in s'.rows ensures RowInv(s', m) { assert RowInv(s, m); SameRow(s, s', m); }
    MoreMessages(s.chain, t.memo, s'.chain);
  }

  lemma MoreMessages(c: Chain, m: Uuid, c': Chain)
    requires ChainInv(c) && m !in c.msgs && m in c'.msgs && c' == c.(msgs := c.msgs[m := c'.msgs[m]])
    ensures ChainInv(c')
  {
    forall i | 0 <= i < |c'.runs| ensures ExecutionInv(c', c'.runs[i]) { assert ExecutionInv(c, c.runs[i]); }
    forall d ensures FundedInv(c', d) { assert FundedInv(c, d); }
  }

  lemma KeepsChain(s: Sys, p: Step, s': Sys)
    requires Inv(s) && Next(s, p, s') && (p.Fund? || p.Block? || p.Execute?)
    ensures Inv(s')
  {
    hide RowInv, ChainInv, OutInv, ChainNext, BuildService, OpenTask, FilledTask, Updated, TtlAt;
    NextChain(s, p, s');
    KeepsMessages(s.chain, p, s'.chain);
    SameRows(s, s');
    ChainStep(s.chain, p, s'.chain);
    forall x | x in s'.built ensures BuiltOk(s'.rows, x) { assert BuiltOk(s.rows, x); }
  }

  lemma NextChain(s: Sys, p: Step, s': Sys)
    requires Next(s, p, s') && (p.Fund? || p.Block? || p.Execute?)
    ensures ChainNext(s.chain, p, s'.chain) && s' == s.(chain := s'.chain)
  {}

  lemma KeepsMessages(c: Chain, p: Step, c': Chain)
    requires ChainNext(c, p, c')
    ensures c'.msgs == c.msgs
  {  }

  lemma ChainStep(c: Chain, p: Step, c': Chain)
    requires ChainInv(c) && ChainNext(c, p, c')
    ensures ChainInv(c')
  {
    hide RunsBy;
    forall i | 0 <= i < |c'.runs| ensures ExecutionInv(c', c'.runs[i]) {
      if i < |c.runs| { assert ExecutionInv(c, c.runs[i]); }
    }
    forall d ensures FundedInv(c', d) {
      assert FundedInv(c, d);
      if p.Execute? { OneMoreRun(c.runs, c'.runs[|c.runs|], d); }
    }
  }

  lemma {:induction false} OneMoreRun(xs: seq<Execution>, x: Execution, d: Address)
    ensures RunsBy(xs + [x], d) == RunsBy(xs, d) + if x.deposit == d then 1 else 0
  {
    assert (xs + [x])[..|xs|] == xs;
  }

  lemma KeepsCreate(s: Sys, p: Step, s': Sys)
    requires Inv(s) && Next(s, p, s') && p.Create?
    ensures Inv(s')
  {
    hide RowInv, OutInv, OpenTask, FilledTask, ChainInv;
    forall m | m in s'.rows ensures RowInv(s', m) {
      if m == p.memo { NewRequest(s, p, s'); } else { SameRow(s, s', m); }
    }
    SettledStays(s, s');
    forall t: ServiceTask
      ensures (OpenTask(s.rows, t) ==> OpenTask(s'.rows, t)) && (FilledTask(s.rows, t) ==> FilledTask(s'.rows, t))
    {
      SameTask(s, s', t);
    }
    forall x | x in s'.built ensures BuiltOk(s'.rows, x) { assert BuiltOk(s.rows, x); }
  }

  lemma NewRequest(s: Sys, p: Step, s': Sys)
    requires Inv(s) && Next(s, p, s') && p.Create?
    ensures RowInv(s', p.memo)
  {
    assert p.memo !in s.fills && p.memo !in s.updates;
  }

  lemma SameRow(s: Sys, s': Sys, m: Uuid)
    requires m in s.rows && RowInv(s, m) && m in s'.rows && s'.rows[m] == s.rows[m] && s'.fills == s.fills
      && s'.updates == s.updates
    ensures RowInv(s', m)
  {}

  lemma SettledStays(s: Sys, s': Sys)
    requires OutInv(s) && s'.fills == s.fills && s'.sending == s.sending && s'.chain == s.chain
    requires forall m :: m in s.rows ==> m in s'.rows && s'.rows[m] == s.rows[m]
    ensures OutInv(s')
  {
    forall m, d, amount | Settled(s, m, d, amount) ensures Settled(s', m, d, amount) {}
    forall t | t in s'.sending ensures Settled(s', t.memo, t.deposit, t.jettonAmount) {
      assert Settled(s, t.memo, t.deposit, t.jettonAmount);
    }
    forall m | m in s'.chain.msgs ensures Settled(s', m, s'.chain.msgs[m].deposit, s'.chain.msgs[m].amount) {
      assert Settled(s, m, s.chain.msgs[m].deposit, s.chain.msgs[m].amount);
    }
  }

  lemma SameTask(s: Sys, s': Sys, t: ServiceTask)
    requires forall m :: m in s.rows ==> m in s'.rows && s'.rows[m] == s.rows[m]
    ensures (OpenTask(s.rows, t) ==> OpenTask(s'.rows, t)) && (FilledTask(s.rows, t) ==> FilledTask(s'.rows, t))
  {}

  lemma KeepsPick(s: Sys, p: Step, s': Sys)
    requires Inv(s) && Next(s, p, s') && (p.PickHot? || p.PickDeposit?)
    ensures Inv(s')
  {
    hide RowInv, OutInv;
    SameRows(s, s');
    var ts := if p.PickHot? then p.tasks else p.filledTasks;
    forall t, u | t in ts && u in ts && t.memo == u.memo ensures t == u { assert t.deposit == u.deposit; }
  }

  lemma StepKeepsInv(s: Sys, p: Step, s': Sys)
    requires Inv(s) && Next(s, p, s')
    ensures Inv(s')
  {
    hide Inv, Updated, BuildService, OpenTask, FilledTask;
    match p
    case Create(_, _, _) => KeepsCreate(s, p, s');
    case PickHot(_) => KeepsPick(s, p, s');
    case PickDeposit(_) => KeepsPick(s, p, s');
    case Handle(_, _, _, _) => KeepsHandle(s, p, s');
    case Store(_, _) => KeepsStore(s, p, s');
    case Record(_, _) => KeepsRecord(s, p, s');
    case Send(_, _) => KeepsSend(s, p, s');
    case Fund(_) => KeepsChain(s, p, s');
    case Block(_) => KeepsChain(s, p, s');
    case Execute(_) => KeepsChain(s, p, s');
    case _ => SmallerPicks(s, s');
  }

  // ---- Runs ----

  type ServiceRun = Run<Sys, Step>

  ghost predicate IsRun(r: ServiceRun) {
    match r
    case Start(s) => Init(s)
    case Then(b, p, s) => IsRun(b) && Next(b.last, p, s)
  }

  lemma {:induction false} RunKeepsInv(r: ServiceRun)
    requires IsRun(r)
    ensures Inv(r.last)
  {
    hide Next;
    match r
    case Start(s) =>
    case Then(b, p, s) =>
      RunKeepsInv(b);
      StepKeepsInv(b.last, p, s);
  }

  /** A request is never filled and processed at once, and takes at most two updates. */
  lemma {:induction false} FilledExcludesProcessed(r: ServiceRun, m: Uuid)
    requires IsRun(r) && m in r.last.rows
    ensures !(r.last.rows[m].filled && r.last.rows[m].processed)
    ensures UpdatesOf(r.last, m) + Rank(r.last.rows[m]) <= 2
  {
    RunKeepsInv(r);
    assert RowInv(r.last, m);
  }

  /** Every execution of a deposit's message, and there may be several, sends the amount recorded when the request was
    * filled, from the request's deposit and before the message's TTL; the request is processed by then. */
  lemma {:induction false} SentWhatWasFilled(r: ServiceRun, x: Execution)
    requires IsRun(r) && x in r.last.chain.runs
    ensures x.memo in r.last.fills && x.amount == r.last.fills[x.memo]
    ensures x.memo in r.last.rows && r.last.rows[x.memo].processed
    ensures x.amount == r.last.rows[x.memo].jettonAmount && x.deposit == r.last.rows[x.memo].payer
    ensures x.memo in r.last.chain.msgs && x.gen <= r.last.chain.msgs[x.memo].ttl
  {
    RunKeepsInv(r);
    var s := r.last;
    var i :| 0 <= i < |s.chain.runs| && s.chain.runs[i] == x;
    assert ExecutionInv(s.chain, x);
    assert Settled(s, x.memo, s.chain.msgs[x.memo].deposit, s.chain.msgs[x.memo].amount);
    assert RowInv(s, x.memo);
  }

  /** A deposit's wallet runs no more often than it was given TON: at most once if that happened once. */
  lemma {:induction false} RunsNeedFunding(r: ServiceRun, d: Address)
    requires IsRun(r)
    ensures RunsBy(r.last.chain.runs, d) <= FundingsOf(r.last.chain, d)
  {
    RunKeepsInv(r);
    assert FundedInv(r.last.chain, d);
  }

  function RunsOf(xs: seq<Execution>, m: Uuid): nat {
    if xs == [] then 0 else RunsOf(xs[..|xs| - 1], m) + if xs[|xs| - 1].memo == m then 1 else 0
  }

  ghost predicate RunsOnce(r: ServiceRun, later: ServiceRun, m: Uuid) {
    IsRun(later) && Continues(r, later) && RunsOf(later.last.chain.runs, m) > RunsOf(r.last.chain.runs, m)
  }

  /** A request gets one message and never another. */
  lemma {:induction false} OneMessage(r: ServiceRun, later: ServiceRun, m: Uuid)
    requires IsRun(later) && Continues(r, later) && m in r.last.chain.msgs
    ensures m in later.last.chain.msgs && later.last.chain.msgs[m] == r.last.chain.msgs[m]
    ensures later.last.chain.head >= r.last.chain.head
  {
    hide Inv, Updated, BuildService, OpenTask, FilledTask, TtlAt;
    if later != r {
      OneMessage(r, later.before, m);
      RunKeepsInv(later.before);
      if later.step.Send? { SendsNew(later.before.last, later.step.sent); }
      ChainOnly(later.before.last, later.step, later.last);
    }
  }

  /** The run sent the request's message, built at this time. */
  ghost predicate SentAt(r: ServiceRun, m: Uuid, at: Time) {
    match r
    case Start(_) => false
    case Then(b, p, _) => (p.Send? && p.sent.memo == m && p.builtAt == at) || SentAt(b, m, at)
  }

  /** The TTL of a message is a whole second, not more than the lifetime after it was built and less than a second
    * short of that. */
  lemma {:induction false} TtlIsLifetime(r: ServiceRun, m: Uuid)
    requires IsRun(r) && m in r.last.chain.msgs
    ensures var ttl := r.last.chain.msgs[m].ttl;
      ttl % SECOND == 0 && exists at :: SentAt(r, m, at) && at + LIFETIME - SECOND < ttl <= at + LIFETIME
  {
    hide Inv, Updated, BuildService, OpenTask, FilledTask, TtlAt;
    var b := r.before;
    if r.step.Send? && r.step.sent.memo == m {
      assert SentAt(r, m, r.step.builtAt);
    } else {
      ChainOnly(b.last, r.step, r.last);
      TtlIsLifetime(b, m);
      var ttl := b.last.chain.msgs[m].ttl;
      var at :| SentAt(b, m, at) && at + LIFETIME - SECOND < ttl <= at + LIFETIME;
      assert SentAt(r, m, at);
    }
  }

  lemma SendsNew(s: Sys, t: ServiceTask)
    requires Inv(s) && t in s.sending
    ensures t.memo !in s.chain.msgs
  {}

  lemma ChainOnly(s: Sys, p: Step, s': Sys)
    requires Next(s, p, s')
    ensures !p.Send? && !p.Fund? && !p.Block? && !p.Execute? ==> s'.chain == s.chain
    ensures !p.Execute? ==> s'.chain.runs == s.chain.runs
    ensures p.Send? ==>
      && p.sent in s.sending && s'.chain.head == s.chain.head
      && s'.chain.msgs == s.chain.msgs[p.sent.memo := s'.chain.msgs[p.sent.memo]]
  {
    hide BuildService, OpenTask, FilledTask, TtlAt, UpdateService;
  }

  /** The exact condition under which a message is done with: however the run goes on, it runs no further time if and
    * only if the last block is past its TTL. */
  lemma {:induction false} RunsUntilTtl(r: ServiceRun, m: Uuid)
    requires IsRun(r) && m in r.last.chain.msgs
    ensures (exists later :: RunsOnce(r, later, m)) <==> r.last.chain.head <= r.last.chain.msgs[m].ttl
  {
    hide IsRun, RunsOf;
    if r.last.chain.head <= r.last.chain.msgs[m].ttl {
      var later := RunAgain(r, m);
    }
    if later :| RunsOnce(r, later, m) { NoneAfterTtl(r, later, m); }
  }

  lemma RunAgain(r: ServiceRun, m: Uuid) returns (later: ServiceRun)
    requires IsRun(r) && m in r.last.chain.msgs && r.last.chain.head <= r.last.chain.msgs[m].ttl
    ensures RunsOnce(r, later, m)
  {
    var c, d := r.last.chain, r.last.chain.msgs[m].deposit;
    var c1 := c.(funded := c.funded + {d}, fundings := c.fundings[d := FundingsOf(c, d) + 1]);
    var one := Then(r, Fund(d), r.last.(chain := c1));
    var c2 := c1.(funded := c1.funded - {d}, runs := c1.runs + [Execution(m, d, c1.msgs[m].amount, c1.head)]);
    later := Then(one, Execute(m), one.last.(chain := c2));
    assert c2.runs[..|c2.runs| - 1] == c.runs;
    assert Continues(r, one);
  }

  lemma {:induction false} NoneAfterTtl(r: ServiceRun, later: ServiceRun, m: Uuid)
    requires RunsOnce(r, later, m) && m in r.last.chain.msgs
    ensures r.last.chain.head <= r.last.chain.msgs[m].ttl
  {
    hide Inv, Updated, BuildService, OpenTask, FilledTask, TtlAt;
    if later != r && !RunsOnce(r, later.before, m) {
      OneMessage(r, later.before, m);
      ChainOnly(later.before.last, later.step, later.last);
      if later.step.Execute? {
        assert later.last.chain.runs[..|later.before.last.chain.runs|] == later.before.last.chain.runs;
      }
    } else {
      NoneAfterTtl(r, later.before, m);
    }
  }

  /** Every step leaves a request alone or brings it strictly nearer to processed. */
  lemma {:induction false} StepsMoveOn(r: ServiceRun, p: Step, s': Sys, m: Uuid)
    requires IsRun(r) && Next(r.last, p, s') && m in r.last.rows
    ensures m in s'.rows && (s'.rows[m] == r.last.rows[m] || Rank(s'.rows[m]) < Rank(r.last.rows[m]))
  {
    hide RowInv, OutInv, ChainInv, ChainNext, TtlAt, BuildService, Settled;
    RunKeepsInv(r);
    var s := r.last;
    assert RowInv(s, m);
    match p
    case Handle(t, w, n, now) =>
      BuiltTask(w, t, n);
      assert OpenTask(s.rows, t);
    case Store(x, ttl) => assert BuiltOk(s.rows, x);
    case Record(t, at) => assert FilledTask(s.rows, t);
    case Create(_, _, _) =>
    case _ => OthersKeepRows(s, p, s');
  }

  lemma OthersKeepRows(s: Sys, p: Step, s': Sys)
    requires Next(s, p, s') && !p.Handle? && !p.Store? && !p.Record? && !p.Create?
    ensures s'.rows == s.rows
  {
    hide ChainNext, TtlAt, BuildService, OpenTask, FilledTask, Updated;
  }

  /** A processed request keeps its row for ever and is never selected again. */
  lemma {:induction false} ProcessedForever(r: ServiceRun, later: ServiceRun, m: Uuid)
    requires IsRun(later) && Continues(r, later) && m in r.last.rows && r.last.rows[m].processed
    ensures m in later.last.rows && later.last.rows[m] == r.last.rows[m]
    ensures forall t: ServiceTask :: t.memo == m ==> !OpenTask(later.last.rows, t) && !FilledTask(later.last.rows, t)
    ensures forall t: ServiceTask :: t in later.last.hot || t in later.last.deposit ==> t.memo != m
  {
    hide Next, RowInv, OutInv;
    if later != r {
      ProcessedForever(r, later.before, m);
      StepsMoveOn(later.before, later.step, later.last, m);
    }
    RunKeepsInv(later);
    assert RowInv(later.last, m);
  }
}
