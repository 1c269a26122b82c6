/** The price of passing a block over. The sync tests look at the greatest saved number only, so a payment in a gap is
  * taken for one that never ran: its row expires, its request is paid again, and no clock has to fail for it. */
module PaymentGaps {
  import opened Base
  import opened Ledger
  import opened Payments
  import opened PaymentRuns
  import opened PaymentSafety
  import opened Runs

  // ---- Continuations without a fault ----

  /** A step with which nothing is wrong: the processor takes the oldest open requests, a block is realistic, the
    * scanner saves the next block or closes a gap, and the update comes at the instant of its check and is harmless. */
  ghost predicate FaultlessStep(s: Sys, p: Step) {
    match p
    case Select(tasks) => forall i :: 0 <= i < |tasks| ==> OldestOpen(s.external, tasks[i])
    case Mine(gen, runs) => RealisticBlock(s, gen, runs)
    case Scan(n, _) => n <= s.saved
    case Expire(cutoff) => cutoff == s.now - ALLOWABLE_LAG && s.checkedAt == Some(s.now) && Harmless(s, cutoff)
    case _ => true
  }

  ghost predicate Faultless(r: PaymentRun, later: PaymentRun) {
    later == r ||
    (later.Then? && Faultless(r, later.before) && Next(later.before.last, later.step, later.last)
     && FaultlessStep(later.before.last, later.step))
  }

  /** No payment is hidden that was not before. */
  predicate LosesNoMore(s: Sys, s': Sys) {
    forall m :: m in s'.executed && InGap(s', m) && s'.executed[m].paid != {} ==> InGap(s, m)
  }

  lemma {:induction false} FaultlessRun(r: PaymentRun, later: PaymentRun)
    requires IsRun(r) && HarmlessExpiry(r) && Faultless(r, later)
    ensures IsRun(later) && HarmlessExpiry(later) && Continues(r, later)
  {
    hide Next, Harmless, RealisticBlock, OldestOpen;
    if later != r { FaultlessRun(r, later.before); }
  }

  /** Such a continuation of a run that keeps to the clocks keeps to them. */
  lemma {:induction false} FaultlessClocks(r: PaymentRun, later: PaymentRun, spacing: nat, delta: Time)
    requires DelayedRun(r, spacing, delta) && delta >= 0 && Faultless(r, later)
    ensures DelayedRun(later, spacing, delta)
  {
    hide Next, Harmless, RealisticBlock, OldestOpen;
    if later != r {
      FaultlessClocks(r, later.before, spacing, delta);
      SameSpacing(later.before.last, later.step, later.last);
    }
  }

  lemma {:induction false} FaultlessGaps(r: PaymentRun, later: PaymentRun)
    requires IsRun(r) && HarmlessExpiry(r) && Faultless(r, later)
    ensures later.last.gaps <= r.last.gaps && LosesNoMore(r.last, later.last)
  {
    hide Next, Inv, FaultlessStep, LosesNoMore;
    if later == r {
      assert LosesNoMore(r.last, r.last) by { LosesNone(r.last); }
    } else {
      FaultlessGaps(r, later.before);
      FaultlessRun(r, later.before);
      RunKeepsInv(later.before);
      StepLosesNoMore(later.before.last, later.step, later.last);
      LosesNoMoreTwice(r.last, later.before.last, later.last);
    }
  }

  lemma LosesNone(s: Sys)
    ensures LosesNoMore(s, s)
  {}

  lemma LosesNoMoreTwice(s: Sys, t: Sys, u: Sys)
    requires LosesNoMore(s, t) && LosesNoMore(t, u)
    requires forall m :: m in u.executed && InGap(t, m) ==> m in t.executed && u.executed[m] == t.executed[m]
    ensures LosesNoMore(s, u)
  {}

  lemma StepKeepsChain(s: Sys, p: Step, s': Sys)
    requires Next(s, p, s')
    ensures forall m :: m in s.executed ==> m in s'.executed && s'.executed[m] == s.executed[m]
  {
    hide CreateExternal, ApplyExternal, ExpireExternal, Reconciled, PaysTasks, Selectable, InSync;
  }

  lemma StepLosesNoMore(s: Sys, p: Step, s': Sys)
    requires Inv(s) && Next(s, p, s') && FaultlessStep(s, p)
    ensures s'.gaps <= s.gaps && LosesNoMore(s, s')
    ensures forall m :: m in s.executed ==> m in s'.executed && s'.executed[m] == s.executed[m]
  {
    hide Inv, Next, FaultlessStep;
    StepKeepsChain(s, p, s');
    NextIsNoGap(s);
    if p.Mine? { MineHidesNothing(s, p, s'); } else { OthersHideNothing(s, p, s'); }
  }

  lemma MineHidesNothing(s: Sys, p: Step, s': Sys)
    requires Inv(s) && Next(s, p, s') && p.Mine?
    ensures s'.gaps == s.gaps && LosesNoMore(s, s')
  {
    hide RowsInv, SentInv, RequestsInv, PhaseInv, CheckInv;
  }

  lemma OthersHideNothing(s: Sys, p: Step, s': Sys)
    requires Next(s, p, s') && FaultlessStep(s, p) && !p.Mine?
    ensures s'.gaps <= s.gaps && LosesNoMore(s, s')
  {
    hide CreateExternal, ApplyExternal, ExpireExternal, Reconciled, PaysTasks, Selectable, Harmless, OldestOpen, InSync;
  }

  lemma Extend(r: PaymentRun, later: PaymentRun, p: Step, s: Sys) returns (later': PaymentRun)
    requires Faultless(r, later) && Next(later.last, p, s) && FaultlessStep(later.last, p)
    ensures Faultless(r, later') && later'.last == s
  {
    hide Next, FaultlessStep;
    later' := Then(later, p, s);
  }

  lemma {:induction false} ReachedInv(r: PaymentRun, later: PaymentRun)
    requires IsRun(r) && HarmlessExpiry(r) && Faultless(r, later)
    ensures Inv(later.last)
  {
    hide Inv, IsRun, HarmlessExpiry, Faultless;
    FaultlessRun(r, later);
    RunKeepsInv(later);
  }

  // ---- Catching up ----

  function EventFor(s: Sys, k: ExtKey): ExternalWithdrawal
    requires k.msg in s.executed
  {
    ExternalWithdrawal(k.msg, 0, 0, k.to, 0, [], k.to !in s.executed[k.msg].paid)
  }

  lemma {:induction false} EventsFor(s: Sys, ks: set<ExtKey>) returns (evs: seq<ExternalWithdrawal>)
    requires forall k :: k in ks ==> k.msg in s.executed
    ensures forall i, j :: 0 <= i < j < |evs| ==> EventKey(evs[i]) != EventKey(evs[j])
    ensures forall e :: e in evs ==> EventKey(e) in ks && e == EventFor(s, EventKey(e))
    ensures forall k :: k in ks ==> EventFor(s, k) in evs
    decreases |ks|
  {
    if ks == {} {
      evs := [];
    } else {
      var k :| k in ks;
      evs := EventsFor(s, ks - {k});
      evs := evs + [EventFor(s, k)];
    }
  }

  /** Every block has reconciled events. */
  lemma BlockHasEvents(s: Sys, n: nat) returns (evs: seq<ExternalWithdrawal>)
    ensures Reconciled(s, n, evs)
  {
    evs := EventsFor(s, set m, a | m in s.executed && s.executed[m].block == n && m in s.msgs && a in s.msgs[m].pays
                      :: ExtKey(m, a));
    forall m, a | m in s.executed && s.executed[m].block == n && m in s.msgs && a in s.msgs[m].pays
      ensures exists e :: e in evs && EventKey(e) == ExtKey(m, a) {
      assert EventFor(s, ExtKey(m, a)) in evs;
    }
  }

  /** The scanner saves all blocks after those it has saved, one by one. */
  lemma {:induction false} CatchUp(r: PaymentRun, later: PaymentRun) returns (later': PaymentRun)
    requires IsRun(r) && HarmlessExpiry(r) && Faultless(r, later) && later.last.saved <= |later.last.blocks|
    ensures Faultless(r, later') && later'.last.saved == |later'.last.blocks|
    ensures later'.last == later.last.(external := later'.last.external, saved := later'.last.saved)
    ensures later'.last.external.requests.Keys == later.last.external.requests.Keys
    decreases |later.last.blocks| - later.last.saved
  {
    hide IsRun, HarmlessExpiry, Faultless, Inv, ApplyExternal, Reconciled;
    var s := later.last;
    if s.saved == |s.blocks| {
      later' := later;
    } else {
      ReachedInv(r, later);
      var evs := BlockHasEvents(s, s.saved);
      later' := ScanOn(r, later, evs);
      later' := CatchUp(r, later');
    }
  }

  /** The next block is saved. */
  lemma {:induction false} ScanOn(r: PaymentRun, later: PaymentRun, evs: seq<ExternalWithdrawal>)
    returns (later': PaymentRun)
    requires Faultless(r, later) && Inv(later.last) && later.last.saved < |later.last.blocks|
    requires Reconciled(later.last, later.last.saved, evs)
    ensures Faultless(r, later') && ApplyExternal(later.last.external, evs).Ok?
    ensures later'.last
      == later.last.(external := ApplyExternal(later.last.external, evs).value, saved := later.last.saved + 1)
    ensures later'.last.external.requests.Keys == later.last.external.requests.Keys
  {
    hide Faultless, Inv, ApplyExternal, Reconciled;
    var s := later.last;
    ScanAccepted(s, s.saved, evs);
    ScanKeepsKeys(s, s.saved, evs);
    NextIsNoGap(s);
    assert s.gaps + Between(s.saved, s.saved) == s.gaps;
    later' := Extend(r, later, Scan(s.saved, evs),
                     s.(external := ApplyExternal(s.external, evs).value, saved := s.saved + 1));
  }

  lemma {:induction false} ScanKeepsKeys(s: Sys, n: nat, evs: seq<ExternalWithdrawal>)
    requires Inv(s) && Savable(s, n) && Reconciled(s, n, evs) && ApplyExternal(s.external, evs).Ok?
    ensures ApplyExternal(s.external, evs).value.requests.Keys == s.external.requests.Keys
  {
    hide Inv, ApplyExternal, AppliedTo, ChainInv, RowsInv, SentInv, Reconciled;
    InvParts(s);
    AcceptedEvents(s, n, evs);
    SameKeys(s.external, evs, ApplyExternal(s.external, evs).value);
  }

  lemma NextIsNoGap(s: Sys)
    requires Inv(s)
    ensures s.saved !in s.gaps && s.saved <= |s.blocks|
  {
    hide RowsInv, SentInv, RequestsInv, PhaseInv, CheckInv;
  }

  // ---- Everything open expires ----

  lemma {:induction false} LatestTtl(msgs: map<MsgId, Message>, ids: set<MsgId>) returns (t: Time)
    requires ids <= msgs.Keys
    ensures forall m :: m in ids ==> msgs[m].ttl <= t
    decreases |ids|
  {
    t := 0;
    if ids != {} {
      var m :| m in ids;
      t := LatestTtl(msgs, ids - {m});
      if t < msgs[m].ttl { t := msgs[m].ttl; }
    }
  }

  lemma WholeSecondAfter(t: Time) returns (g: Time)
    ensures g % SECOND == 0 && t < g
  {
    g := (t / SECOND + 1) * SECOND;
  }

  /** Between rounds: the last block is saved and has just been generated. */
  predicate UpToDate(s: Sys) {
    s.phase == Idle && 0 < s.saved == |s.blocks| && s.now == s.blocks[s.saved - 1] && s.now % SECOND == 0
  }

  /** The chain, the messages and the gaps of a state later on. */
  predicate SameChain(s: Sys, s': Sys) {
    s'.executed == s.executed && s'.msgs == s.msgs && s'.gaps == s.gaps
  }

  predicate NoneOpen(x: External) { forall k :: k in x.rows ==> x.rows[k].failed || x.rows[k].processedLt.Some? }

  /** A block without anything of ours is generated now and saved. */
  lemma {:induction false} SaveEmptyBlock(r: PaymentRun, later: PaymentRun, gen: Time) returns (later': PaymentRun)
    requires IsRun(r) && HarmlessExpiry(r) && Faultless(r, later) && later.last.saved == |later.last.blocks|
    requires gen % SECOND == 0 && later.last.now <= gen
    requires |later.last.blocks| > 0 ==>
      later.last.blocks[|later.last.blocks| - 1] + later.last.spacing * SECOND <= gen
    ensures Faultless(r, later')
    ensures later'.last
      == later.last.(now := gen, blocks := later.last.blocks + [gen], saved := later.last.saved + 1)
  {
    hide IsRun, HarmlessExpiry, Faultless, Inv, Reconciled;
    var s := later.last;
    later' := Extend(r, later, Tick(gen), s.(now := gen));
    assert s.executed + map[] == s.executed;
    var s1 := s.(now := gen, blocks := s.blocks + [gen]);
    later' := Extend(r, later', Mine(gen, map[]), s1);
    ReachedInv(r, later');
    NothingInLast(later, s1);
    ReachedInv(r, later);
    NothingAhead(s, s1);
    later' := ScanOn(r, later', []);
  }

  lemma NothingInLast(later: PaymentRun, s: Sys)
    ensures ApplyExternal(s.external, []).Ok? && ApplyExternal(s.external, []).value == s.external
  {}

  lemma NothingAhead(s: Sys, s': Sys)
    requires Inv(s) && s'.executed == s.executed
    ensures Reconciled(s', |s.blocks|, [])
  {
    hide RowsInv, SentInv, RequestsInv, PhaseInv, CheckInv;
  }

  /** A check and an update at the same instant, with every message past its TTL by more than the lag: nothing stays
    * open. */
  lemma {:induction false} ExpireAll(r: PaymentRun, later: PaymentRun) returns (later': PaymentRun)
    requires IsRun(r) && HarmlessExpiry(r) && Faultless(r, later) && UpToDate(later.last)
    requires forall m :: m in later.last.msgs ==> later.last.msgs[m].ttl < later.last.now - ALLOWABLE_LAG
    ensures Faultless(r, later') && UpToDate(later'.last) && SameChain(later.last, later'.last)
    ensures later'.last.external.requests.Keys == later.last.external.requests.Keys && NoneOpen(later'.last.external)
  {
    hide IsRun, HarmlessExpiry, Faultless, Inv, ExpireExternal, Harmless;
    var s := later.last;
    ReachedInv(r, later);
    later' := Extend(r, later, CheckSync, s.(checkedAt := Some(s.now)));
    var cutoff := s.now - ALLOWABLE_LAG;
    var s1 := s.(checkedAt := Some(s.now));
    AllTooOld(s, s1, cutoff);
    later' := Extend(r, later', Expire(cutoff), s1.(external := ExpireExternal(s.external, cutoff), checkedAt := None));
    AllExpired(s, cutoff);
  }

  lemma AllTooOld(s: Sys, s1: Sys, cutoff: Time)
    requires Inv(s) && UpToDate(s) && s1 == s.(checkedAt := Some(s.now)) && cutoff <= s.now
    requires forall m :: m in s.msgs ==> s.msgs[m].ttl < cutoff
    ensures Harmless(s1, cutoff)
  {
    hide SentInv, RequestsInv, PhaseInv, CheckInv, ChainInv;
    forall k | k in s1.external.rows ensures !Exposed(s1, k, cutoff) { assert RowInv(s, k); }
  }

  lemma AllExpired(s: Sys, cutoff: Time)
    requires Inv(s) && forall m :: m in s.msgs ==> s.msgs[m].ttl < cutoff
    ensures NoneOpen(ExpireExternal(s.external, cutoff))
    ensures ExpireExternal(s.external, cutoff).requests.Keys == s.external.requests.Keys
  {
    hide SentInv, RequestsInv, PhaseInv, CheckInv, ChainInv;
    var x := ExpireExternal(s.external, cutoff);
    forall k | k in x.rows ensures x.rows[k].failed || x.rows[k].processedLt.Some? { assert RowInv(s, k); }
  }

  /** From any state, without a fault, to one in which everything open has expired. */
  lemma {:induction false} Settle(r: PaymentRun) returns (later: PaymentRun)
    requires IsRun(r) && HarmlessExpiry(r)
    ensures Faultless(r, later) && UpToDate(later.last) && SameChain(r.last, later.last)
    ensures later.last.external.requests.Keys == r.last.external.requests.Keys && NoneOpen(later.last.external)
  {
    hide IsRun, HarmlessExpiry, Inv, Next;
    assert Faultless(r, r);
    later := Crashed(r);
    hide Faultless;
    ReachedInv(r, later);
    NextIsNoGap(later.last);
    later := CatchUp(r, later);
    var s := later.last;
    var t := LatestTtl(s.msgs, s.msgs.Keys);
    var last := if |s.blocks| > 0 then s.blocks[|s.blocks| - 1] + s.spacing * SECOND else 0;
    var at := if t + ALLOWABLE_LAG < s.now then s.now else t + ALLOWABLE_LAG;
    var gen := WholeSecondAfter(if at < last then last else at);
    later := SaveEmptyBlock(r, later, gen);
    later := ExpireAll(r, later);
  }

  lemma Crashed(r: PaymentRun) returns (later: PaymentRun)
    requires IsRun(r)
    ensures Faultless(r, later) && later.last == r.last.(phase := Idle, checkedAt := None)
  {
    later := Extend(r, r, Crash, r.last.(phase := Idle, checkedAt := None));
  }

  // ---- A round pays an open request ----

  predicate Open(x: External, q: int) { q in x.requests && !x.requests[q].processing }

  function TaskOf(x: External, q: int): ExternalTask
    requires q in x.requests
  {
    var r := x.requests[q];
    ExternalTask(q, r.currency, r.amount, r.dest, r.bounceable, r.comment)
  }

  lemma FreshMsg(msgs: map<MsgId, Message>) returns (m: MsgId)
    ensures m !in msgs
  {
    var n := GreatestHash(msgs, msgs.Keys);
    m := MsgId(n + 1);
  }

  lemma {:induction false} GreatestHash(msgs: map<MsgId, Message>, ids: set<MsgId>) returns (n: nat)
    ensures forall m :: m in ids ==> m.hash <= n
    decreases |ids|
  {
    n := 0;
    if ids != {} {
      var m :| m in ids;
      n := GreatestHash(msgs, ids - {m});
      if n < m.hash { n := m.hash; }
    }
  }

  lemma NoRowsYet(s: Sys, m: MsgId, t: ExternalTask)
    requires Inv(s) && m !in s.msgs
    ensures FreshRows(s.external, [t], m)
  {
    hide SentInv, RequestsInv, PhaseInv, CheckInv, ChainInv;
    assert ExtKey(m, t.dest) in s.external.rows ==> RowInv(s, ExtKey(m, t.dest));
  }

  lemma OneIsSelectable(x: External, q: int)
    requires Open(x, q)
    ensures Selectable(x, [TaskOf(x, q)])
  {}

  lemma SelectsOldest(s: Sys, q: int)
    requires Open(s.external, q) && OldestOpen(s.external, TaskOf(s.external, q))
    ensures FaultlessStep(s, Select([TaskOf(s.external, q)]))
  {
    hide OldestOpen;
  }

  function MessageFor(at: Time, t: ExternalTask): Message {
    Message(at, TtlAt(at), map[t.dest := t.queryId])
  }

  /** One round for one task: select, build at `at`, persist, send. */
  lemma {:induction false} SendTask(r: PaymentRun, later: PaymentRun, q: int, m: MsgId, at: Time)
    returns (later': PaymentRun)
    requires Faultless(r, later) && Inv(later.last) && UpToDate(later.last) && later.last.now <= at
    requires Open(later.last.external, q) && OldestOpen(later.last.external, TaskOf(later.last.external, q))
    requires m !in later.last.msgs
    ensures Faultless(r, later')
    ensures var s, t := later.last, TaskOf(later.last.external, q);
      && CreateExternal(s.external, [t], m, TtlAt(at)).Ok?
      && later'.last == s.(external := CreateExternal(s.external, [t], m, TtlAt(at)).value, now := at,
                           msgs := s.msgs[m := MessageFor(at, t)], sent := s.sent + {m})
  {
    hide Faultless, Inv, OldestOpen, Selectable, TtlAt, FreshRows, SetProcessing, NewRows, FaultlessStep, TaskOf;
    var s, t := later.last, TaskOf(later.last.external, q);
    OneIsSelectable(s.external, q);
    NoRowsYet(s, m, t);
    later' := Woken(r, later);
    SelectsOldest(later'.last, q);
    later' := Extend(r, later', Select([t]), s.(phase := Selected([t])));
    later' := Built(r, later', t, m, at);
    var s2 := later'.last;
    var x := CreateExternal(s2.external, [t], m, TtlAt(at)).value;
    later' := Sent(r, later', t, m);
  }

  lemma Woken(r: PaymentRun, later: PaymentRun) returns (later': PaymentRun)
    requires Faultless(r, later) && UpToDate(later.last)
    ensures Faultless(r, later') && later'.last == later.last.(phase := Awake)
  {
    hide Faultless;
    later' := Extend(r, later, WaitSync, later.last.(phase := Awake));
  }

  lemma Built(r: PaymentRun, later: PaymentRun, t: ExternalTask, m: MsgId, at: Time) returns (later': PaymentRun)
    requires Faultless(r, later) && later.last.phase == Selected([t]) && m !in later.last.msgs && later.last.now <= at
    ensures Faultless(r, later')
    ensures later'.last == later.last.(now := at, msgs := later.last.msgs[m := MessageFor(at, t)],
                                       phase := Phase.Built(m, [t]))
  {
    hide Faultless, TtlAt;
    var s := later.last;
    later' := Extend(r, later, Tick(at), s.(now := at));
    assert t in [t] && BuiltNow(s.(now := at), MessageFor(at, t));
    later' := Extend(r, later', Build(m), s.(now := at, msgs := s.msgs[m := MessageFor(at, t)],
                                             phase := Phase.Built(m, [t])));
  }

  lemma Sent(r: PaymentRun, later: PaymentRun, t: ExternalTask, m: MsgId) returns (later': PaymentRun)
    requires Faultless(r, later) && later.last.phase == Phase.Built(m, [t]) && m in later.last.msgs
    requires FreshRows(later.last.external, [t], m)
    ensures Faultless(r, later')
    ensures later'.last == later.last.(
      external := CreateExternal(later.last.external, [t], m, later.last.msgs[m].ttl).value,
      sent := later.last.sent + {m}, phase := Idle)
  {
    hide Faultless, FreshRows, SetProcessing, NewRows;
    var s := later.last;
    var x := CreateExternal(s.external, [t], m, s.msgs[m].ttl).value;
    later' := Extend(r, later, Persist, s.(external := x, phase := Persisted(m)));
    later' := Extend(r, later', Send, s.(external := x, sent := s.sent + {m}, phase := Idle));
  }

  /** The message can be executed now, in a block that follows the last one at once. */
  predicate Executable(s: Sys, m: MsgId, a: Address) {
    && s.phase == Idle && 0 < s.saved == |s.blocks| && s.now == s.blocks[s.saved - 1] + s.spacing * SECOND
    && s.now % SECOND == 0 && m in s.sent && m in s.msgs && m !in s.executed
    && s.msgs[m].builtAt <= s.now <= s.msgs[m].ttl && s.msgs[m].pays.Keys == {a}
  }

  function AfterBlock(s: Sys, m: MsgId, a: Address): Sys {
    s.(blocks := s.blocks + [s.now], executed := s.executed[m := Execution(|s.blocks|, {a})])
  }

  lemma Executed(r: PaymentRun, later: PaymentRun, m: MsgId, a: Address) returns (later': PaymentRun)
    requires Faultless(r, later) && Executable(later.last, m, a)
    ensures Faultless(r, later') && later'.last == AfterBlock(later.last, m, a)
  {
    hide Faultless;
    var s := later.last;
    var runs := map[m := Execution(|s.blocks|, {a})];
    assert s.executed + runs == s.executed[m := Execution(|s.blocks|, {a})];
    later' := Extend(r, later, Mine(s.now, runs), AfterBlock(s, m, a));
  }

  /** The message is executed and pays, and its block is saved. */
  lemma {:induction false} PayNow(r: PaymentRun, later: PaymentRun, m: MsgId, e: ExternalWithdrawal)
    returns (later': PaymentRun)
    requires IsRun(r) && HarmlessExpiry(r) && Faultless(r, later) && Executable(later.last, m, e.to)
    requires e == ExternalWithdrawal(m, 0, 0, e.to, 0, [], false)
    ensures Faultless(r, later') && UpToDate(later'.last) && later'.last.gaps == later.last.gaps
    ensures later'.last.msgs == later.last.msgs
    ensures later'.last.executed == later.last.executed[m := Execution(|later.last.blocks|, {e.to})]
    ensures ApplyExternal(later.last.external, [e]).Ok?
      && later'.last.external == ApplyExternal(later.last.external, [e]).value
  {
    hide IsRun, HarmlessExpiry, Faultless, Inv, ApplyExternal, Reconciled;
    var s := later.last;
    ReachedInv(r, later);
    OnlyEvent(s, AfterBlock(s, m, e.to), m, e);
    later' := Executed(r, later, m, e.to);
    ReachedInv(r, later');
    later' := ScanOn(r, later', [e]);
  }

  lemma OnlyEvent(s: Sys, s1: Sys, m: MsgId, e: ExternalWithdrawal)
    requires Inv(s) && m in s.msgs && s.msgs[m].pays.Keys == {e.to} && s1.msgs == s.msgs
    requires s1.executed == s.executed[m := Execution(|s.blocks|, {e.to})]
    requires e == ExternalWithdrawal(m, 0, 0, e.to, 0, [], false)
    ensures Reconciled(s1, |s.blocks|, [e])
  {
    hide RowsInv, SentInv, RequestsInv, PhaseInv, CheckInv;
    assert e in [e];
  }

  lemma TtlCovers(at: Time)
    requires at % SECOND == 0
    ensures at <= TtlAt(at)
  {}

  /** A full round: the oldest open request of its destination is paid, and no other is touched. */
  lemma {:induction false} Round(r: PaymentRun, later: PaymentRun, q: int) returns (later': PaymentRun, m: MsgId)
    requires IsRun(r) && HarmlessExpiry(r) && Faultless(r, later) && UpToDate(later.last)
    requires Open(later.last.external, q) && OldestOpen(later.last.external, TaskOf(later.last.external, q))
    ensures Faultless(r, later') && UpToDate(later'.last)
    ensures OtherRequestsSame(later.last.external, later'.last.external, q) && !Open(later'.last.external, q)
    ensures KeepsPayments(later.last, later'.last)
    ensures m !in later.last.msgs && ExtKey(m, later.last.external.requests[q].dest) in PaymentsOf(later'.last, q)
  {
    hide IsRun, HarmlessExpiry, Faultless, Inv, TtlAt, ApplyExternal, CreateExternal, OldestOpen;
    var s := later.last;
    ReachedInv(r, later);
    m := FreshMsg(s.msgs);
    var at := s.now + s.spacing * SECOND;
    TtlCovers(at);
    var t := TaskOf(s.external, q);
    var e := ExternalWithdrawal(m, 0, 0, t.dest, 0, [], false);
    NotExecuted(s, m);
    later' := SendTask(r, later, q, m, at);
    var x := later'.last.external;
    later' := PayNow(r, later', m, e);
    RoundTables(s.external, q, m, TtlAt(at), e);
  }

  lemma NotExecuted(s: Sys, m: MsgId)
    requires Inv(s) && m !in s.msgs
    ensures m !in s.executed
  {
    hide RowsInv, RequestsInv, PhaseInv, CheckInv;
  }

  predicate OtherRequestsSame(x: External, x': External, q: int) {
    x'.requests.Keys == x.requests.Keys && forall p :: p in x.requests && p != q ==> x'.requests[p] == x.requests[p]
  }

  /** What was executed stays so, and where it was. */
  predicate KeepsPayments(s: Sys, s': Sys) {
    && s'.gaps == s.gaps
    && (forall m :: m in s.executed && m in s.msgs ==> m in s'.executed && s'.executed[m] == s.executed[m])
    && forall m :: m in s.msgs ==> m in s'.msgs && s'.msgs[m] == s.msgs[m]
  }

  lemma RoundTables(x: External, q: int, m: MsgId, ttl: Time, e: ExternalWithdrawal)
    requires Open(x, q) && CreateExternal(x, [TaskOf(x, q)], m, ttl).Ok?
    requires e == ExternalWithdrawal(m, 0, 0, x.requests[q].dest, 0, [], false)
    requires ApplyExternal(CreateExternal(x, [TaskOf(x, q)], m, ttl).value, [e]).Ok?
    ensures var x' := ApplyExternal(CreateExternal(x, [TaskOf(x, q)], m, ttl).value, [e]).value;
      OtherRequestsSame(x, x', q) && !Open(x', q)
  {
    var t := TaskOf(x, q);
    var y := CreateExternal(x, [t], m, ttl).value;
    assert TaskQueries([t]) == {q};
    PersistedRows(x, [t], m, ttl);
    assert t in [t] && y.rows[ExtKey(m, t.dest)].queryId == q;
    assert [e][..0] == [] && ApplyExternal(y, []) == Ok(y);
    assert ApplyExternal(y, [e]) == UpdateExternal(y, e);
  }

  // ---- The request of a lost payment is paid again ----

  function OlderOpen(x: External, q: int): set<int>
    requires q in x.requests
  {
    set p | p in x.requests && !x.requests[p].processing && x.requests[p].dest == x.requests[q].dest && p < q
  }

  /** The oldest open request of a destination. */
  lemma {:induction false} FirstOpen(x: External, q: int) returns (p: int)
    requires Open(x, q)
    ensures Open(x, p) && (p == q || p in OlderOpen(x, q)) && OldestOpen(x, TaskOf(x, p))
    decreases OlderOpen(x, q)
  {
    if o :| o in OlderOpen(x, q) {
      assert o !in OlderOpen(x, o);
      p := FirstOpen(x, o);
    } else {
      p := q;
      assert forall o :: Open(x, o) && x.requests[o].dest == x.requests[q].dest && o < q ==> o in OlderOpen(x, q);
    }
  }

  /** Round by round, the older requests for the same destination first. */
  lemma {:induction false} PayInTurn(r: PaymentRun, later: PaymentRun, q: int, k: ExtKey) returns (later': PaymentRun)
    requires IsRun(r) && HarmlessExpiry(r) && Faultless(r, later) && UpToDate(later.last)
    requires Open(later.last.external, q) && k in PaymentsOf(later.last, q)
    ensures Faultless(r, later') && !PaidAtMostOnce(later'.last)
    decreases OlderOpen(later.last.external, q)
  {
    hide IsRun, HarmlessExpiry, Faultless, PaidAtMostOnce, UpToDate;
    var x := later.last.external;
    var p := FirstOpen(x, q);
    var mid, m := Round(r, later, p);
    StillPaid(later.last, mid.last, q, k);
    if p == q {
      later' := mid;
      PaidAgain(later'.last, q, k, ExtKey(m, x.requests[q].dest));
    } else {
      assert p !in OlderOpen(mid.last.external, q);
      later' := PayInTurn(r, mid, q, k);
    }
  }

  lemma StillPaid(s: Sys, s': Sys, q: int, k: ExtKey)
    requires KeepsPayments(s, s') && k in PaymentsOf(s, q)
    ensures k in PaymentsOf(s', q) && k.msg in s.msgs
  {}

  lemma PaidAgain(s: Sys, q: int, k: ExtKey, l: ExtKey)
    requires k in PaymentsOf(s, q) && l in PaymentsOf(s, q) && k != l
    ensures !PaidAtMostOnce(s)
  {}

  /** When everything open has expired, a request paid only in a gap is open again. */
  lemma LostIsOpen(s: Sys, q: int, k: ExtKey)
    requires Inv(s) && NoneOpen(s.external) && PaidAtMostOnce(s) && k in PaymentsOf(s, q) && InGap(s, k.msg)
    ensures Open(s.external, q)
  {
    hide SentInv, PhaseInv, CheckInv, ChainInv, RequestsInv, RowInv, PaymentsOf, PaidAtMostOnce;
    PaidRowHolds(s, q, k);
    assert RequestInv(s.external, q) by { OneRequest(s, q); }
    if h :| Holds(s.external, h, q) {
      HeldWasSeen(s, q, h);
      OnlyPayment(s, q, k, h);
    }
  }

  lemma OneRequest(s: Sys, q: int)
    requires Inv(s) && q in s.external.requests
    ensures RequestInv(s.external, q)
  {
    hide SentInv, PhaseInv, CheckInv, ChainInv, RowsInv, RequestInv;
  }

  lemma HeldWasSeen(s: Sys, q: int, h: ExtKey)
    requires Inv(s) && NoneOpen(s.external) && Holds(s.external, h, q)
    ensures h in PaymentsOf(s, q) && Seen(s, h.msg)
  {
    hide SentInv, PhaseInv, CheckInv, ChainInv, RequestsInv;
    assert RowInv(s, h);
  }

  lemma OnlyPayment(s: Sys, q: int, k: ExtKey, h: ExtKey)
    requires PaidAtMostOnce(s) && k in PaymentsOf(s, q) && h in PaymentsOf(s, q)
    ensures k == h
  {}

  /** From every harmless run with a payment in a gap, a continuation without any further fault pays twice. */
  lemma {:induction false} PayAgain(r: PaymentRun, k: ExtKey) returns (later: PaymentRun)
    requires IsRun(r) && HarmlessExpiry(r) && Lost(r.last, k)
    ensures Faultless(r, later) && !PaidAtMostOnce(later.last)
  {
    hide IsRun, HarmlessExpiry, PaidAtMostOnce, Inv, UpToDate, NoneOpen, Next;
    if !PaidAtMostOnce(r.last) {
      later := r;
    } else {
      hide Faultless;
      RunKeepsInv(r);
      var q := LostRequest(r.last, k);
      later := Settle(r);
      ReachedInv(r, later);
      SamePayments(r.last, later.last, q);
      LostIsOpen(later.last, q, k);
      later := PayInTurn(r, later, q, k);
    }
  }

  lemma LostRequest(s: Sys, k: ExtKey) returns (q: int)
    requires Inv(s) && Lost(s, k)
    ensures k in PaymentsOf(s, q)
  {
    hide RowsInv, RequestsInv, PhaseInv, CheckInv;
    q := s.msgs[k.msg].pays[k.to];
  }

  lemma SamePayments(s: Sys, s': Sys, q: int)
    requires SameChain(s, s')
    ensures PaymentsOf(s', q) == PaymentsOf(s, q) && (PaidAtMostOnce(s) ==> PaidAtMostOnce(s'))
  {
    forall p ensures PaymentsOf(s', p) == PaymentsOf(s, p) {}
  }

  // ---- The exact price ----

  /** However the run goes on with harmless updates, unless it loses another payment, no request is paid twice. */
  ghost predicate SafeFrom(r: PaymentRun) {
    forall later :: IsRun(later) && HarmlessExpiry(later) && Continues(r, later) && LosesNoMore(r.last, later.last) ==>
      PaidAtMostOnce(later.last)
  }

  /** From every reachable state: no request is ever paid twice if and only if no block that was passed over holds a
    * payment of ours. */
  lemma {:induction false} SkipExact(r: PaymentRun)
    requires IsRun(r) && HarmlessExpiry(r)
    ensures SafeFrom(r) <==> NoneLost(r.last)
  {
    hide IsRun, HarmlessExpiry, PaidAtMostOnce, Continues, Faultless;
    if NoneLost(r.last) {
      forall later | IsRun(later) && HarmlessExpiry(later) && Continues(r, later) && LosesNoMore(r.last, later.last)
        ensures PaidAtMostOnce(later.last) {
        ChainOnly(r, later);
        assert NoneGivenUp(later.last);
        NoDoublePayment(later);
      }
    } else {
      var m :| m in r.last.executed && InGap(r.last, m) && r.last.executed[m].paid != {};
      var a :| a in r.last.executed[m].paid;
      var later := PayAgain(r, ExtKey(m, a));
      FaultlessRun(r, later);
      FaultlessGaps(r, later);
    }
  }

  /** Executions are never taken back. */
  lemma {:induction false} ChainOnly(r: PaymentRun, later: PaymentRun)
    requires IsRun(later) && HarmlessExpiry(later) && Continues(r, later)
    ensures forall m :: m in r.last.executed ==>
      m in later.last.executed && later.last.executed[m] == r.last.executed[m]
  {
    hide Next, Harmless;
    if later != r {
      ChainOnly(r, later.before);
      StepKeepsChain(later.before.last, later.step, later.last);
    }
  }

  /** A realistic run without any delay, whatever the block spacing, that passes over the block of a payment and pays
    * the request again. */
  lemma SkippedBlockPaysTwice(spacing: nat) returns (r: PaymentRun)
    ensures DelayedRun(r, spacing, 0) && HarmlessExpiry(r) && !PaidAtMostOnce(r.last)
  {
    hide DelayedRun, HarmlessExpiry, PaidAtMostOnce, Faultless, TtlAt, CreateExternal, Selectable, FreshRows;
    var gap, m := spacing * SECOND, MsgId(1);
    var x0 := External(map[0 := REQUEST], map[]);
    Selectable0(x0);
    TtlOfSeconds(spacing);
    r := Requested(spacing, 0);
    r := Wake(r, spacing, 0);
    r := Pay(r, m, gap, spacing, 0);
    r := Execute(r, m, gap, spacing, 0);
    r := PassOver(r, spacing);
    assert Lost(r.last, ExtKey(m, DEST));
    assert IsRun(r) by { IsARun(r, spacing); }
    var later := PayAgain(r, ExtKey(m, DEST));
    FaultlessClocks(r, later, spacing, 0);
    FaultlessRun(r, later);
    r := later;
  }

  lemma IsARun(r: PaymentRun, spacing: nat)
    requires DelayedRun(r, spacing, 0)
    ensures IsRun(r)
  {}

  /** The last block is left behind when an empty one after it is saved. */
  lemma PassOver(r: PaymentRun, spacing: nat) returns (r': PaymentRun)
    requires DelayedRun(r, spacing, 0) && HarmlessExpiry(r)
    requires var s := r.last;
      && s.now % SECOND == 0 && s.gaps == {} && 0 < s.saved && |s.blocks| == s.saved + 1
      && s.blocks[s.saved] <= s.now && forall m :: m in s.executed ==> s.executed[m].block == s.saved
    ensures DelayedRun(r', spacing, 0) && HarmlessExpiry(r')
    ensures r'.last == r.last.(now := r'.last.now, blocks := r'.last.blocks, saved := r.last.saved + 2,
                               gaps := {r.last.saved})
  {
    hide IsRun, Realistic, CutoffAsWritten, ElapsedAtMost, HarmlessExpiry;
    var s := r.last;
    var gen := s.now + spacing * SECOND;
    r' := Grow(r, Tick(gen), s.(now := gen), spacing, 0);
    assert s.executed + map[] == s.executed;
    var s1 := s.(now := gen, blocks := s.blocks + [gen]);
    r' := Grow(r', Mine(gen, map[]), s1, spacing, 0);
    assert s.gaps + Between(s.saved, s.saved + 1) == {s.saved};
    r' := Grow(r', Scan(s.saved + 1, []), s1.(saved := s.saved + 2, gaps := {s.saved}), spacing, 0);
  }
}
