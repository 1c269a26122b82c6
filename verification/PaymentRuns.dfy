/** Whole runs of the payment protocol, and exactly how much time the expiry processor may lose
  * between its sync check and its table update. */
module PaymentRuns {
  import opened Base
  import opened Ledger
  import opened Payments
  import opened PaymentSafety
  import opened PaymentWide
  import opened Runs

  type PaymentRun = Run<Sys, Step>

  ghost predicate IsRun(r: PaymentRun) {
    match r
    case Start(s) => Init(s)
    case Then(b, p, s) => IsRun(b) && Next(b.last, p, s)
  }

  /** The cutoff the code computes: the clock at the instant of the update, minus the allowed lag. */
  predicate CutoffAsWritten(r: PaymentRun) {
    r.Then? ==>
      CutoffAsWritten(r.before) && (r.step.Expire? ==> r.step.cutoff == r.before.last.now - ALLOWABLE_LAG)
  }

  /** At most `delta` passes between the sync check and the update it guards. */
  predicate ElapsedAtMost(r: PaymentRun, delta: Time) {
    r.Then? ==>
      && ElapsedAtMost(r.before, delta)
      && (r.step.Expire? && r.before.last.checkedAt.Some? ==>
           r.before.last.now - r.before.last.checkedAt.value <= delta)
  }

  /** No update fails a row of a message that is out and that the next block can still execute. */
  predicate HarmlessExpiry(r: PaymentRun) {
    r.Then? ==> HarmlessExpiry(r.before) && (r.step.Expire? ==> Harmless(r.before.last, r.step.cutoff))
  }

  /** The sync test would still pass at the instant of every update. */
  predicate InSyncAtExpiry(r: PaymentRun) {
    r.Then? ==> InSyncAtExpiry(r.before) && (r.step.Expire? ==> InSync(r.before.last))
  }

  /** A block is not generated in the future, and executes no message before it was built. */
  predicate RealisticBlock(s: Sys, gen: Time, runs: map<MsgId, Execution>) {
    gen <= s.now && forall m :: m in runs ==> m in s.msgs && s.msgs[m].builtAt <= gen
  }

  predicate Realistic(r: PaymentRun) {
    r.Then? ==> Realistic(r.before) && (r.step.Mine? ==> RealisticBlock(r.before.last, r.step.gen, r.step.runs))
  }

  lemma StepKeepsInv(s: Sys, p: Step, s': Sys)
    requires Inv(s) && Next(s, p, s')
    requires p.Expire? ==> Harmless(s, p.cutoff)
    ensures Inv(s')
  {
    hide Inv, Next, Harmless;
    match p
    case CreateRequest(q, r) => KeepsCreateRequest(s, q, r, s');
    case Build(m) => KeepsBuild(s, m, s');
    case Persist => KeepsPersist(s, s');
    case Mine(gen, runs) => KeepsMine(s, gen, runs, s');
    case Scan(n, evs) => KeepsScan(s, n, evs, s');
    case Expire(cutoff) => KeepsExpire(s, cutoff, s');
    case _ => KeepsQuietStep(s, p, s');
  }

  lemma {:induction false} RunKeepsInv(r: PaymentRun)
    requires IsRun(r) && HarmlessExpiry(r)
    ensures Inv(r.last)
  {
    hide Inv, Next, Harmless;
    match r
    case Start(s) => InitInv(s);
    case Then(b, p, s) =>
      RunKeepsInv(b);
      StepKeepsInv(b.last, p, s);
  }

  /** No double payment: in every run whose updates are harmless and give up no payment that a gap hides, each request
    * is paid at most once on chain. */
  lemma {:induction false} NoDoublePayment(r: PaymentRun)
    requires IsRun(r) && HarmlessExpiry(r) && NoneGivenUp(r.last)
    ensures PaidAtMostOnce(r.last)
    ensures forall q :: |PaymentsOf(r.last, q)| <= 1
  {
    hide Inv, IsRun, HarmlessExpiry, PaymentsOf, NoneGivenUp;
    RunKeepsInv(r);
    InvImpliesPaidAtMostOnce(r.last);
    forall q ensures |PaymentsOf(r.last, q)| <= 1 {
      var ps := PaymentsOf(r.last, q);
      if k :| k in ps { assert ps == {k}; }
    }
  }

  /** As written, the code is safe in every run in which the sync test still holds when expiry strikes. */
  lemma {:induction false} NoDoublePaymentWhenInSync(r: PaymentRun)
    requires IsRun(r) && CutoffAsWritten(r) && InSyncAtExpiry(r)
    ensures HarmlessExpiry(r) && (NoneGivenUp(r.last) ==> PaidAtMostOnce(r.last))
  {
    hide PaidAtMostOnce, NoneGivenUp, IsRun;
    HarmlessInSync(r);
    if NoneGivenUp(r.last) { NoDoublePayment(r); }
  }

  lemma {:induction false} HarmlessInSync(r: PaymentRun)
    requires CutoffAsWritten(r) && InSyncAtExpiry(r)
    ensures HarmlessExpiry(r)
  {
    hide Harmless, InSync, SafeCutoff;
    if r.Then? {
      HarmlessInSync(r.before);
      if r.step.Expire? {
        SafeNow(r.before.last);
        LowerCutoff(r.before.last, r.step.cutoff, r.before.last.now - ALLOWABLE_LAG + r.before.last.spacing * SECOND);
      }
    }
  }

  lemma LowerCutoff(s: Sys, cutoff: Time, safe: Time)
    requires SafeCutoff(s, safe) && cutoff <= safe
    ensures Harmless(s, cutoff)
  {
    SafeIsHarmless(s, cutoff);
  }

  /** In every harmless run the scanner accepts the reconciled events of every block after those it has saved, the
    * tables stay consistent, and a request shown as processed has been paid, once if no payment was given up. */
  lemma {:induction false} TablesMatchChain(r: PaymentRun, n: nat, evs: seq<ExternalWithdrawal>)
    requires IsRun(r) && HarmlessExpiry(r)
    ensures var s := r.last;
      s.saved <= n < |s.blocks| && Reconciled(s, n, evs) ==> ApplyExternal(s.external, evs).Ok?
    ensures forall q :: q in r.last.external.requests ==> RequestInv(r.last.external, q)
    ensures forall k :: k in r.last.external.rows ==>
      !(r.last.external.rows[k].failed && r.last.external.rows[k].processedLt.Some?)
    ensures forall q :: q in r.last.external.requests && r.last.external.requests[q].processed ==>
      PaymentsOf(r.last, q) != {} && (NoneGivenUp(r.last) ==> |PaymentsOf(r.last, q)| == 1)
  {
    hide Next, PhaseInv, CheckInv, SentInv, ChainInv, Reconciled, IsRun, HarmlessExpiry, ApplyExternal, RequestInv,
         RowInv, NoneGivenUp;
    RunKeepsInv(r);
    var s := r.last;
    if s.saved <= n < |s.blocks| && Reconciled(s, n, evs) { ScanAccepted(s, n, evs); }
    forall k | k in s.external.rows ensures !(s.external.rows[k].failed && s.external.rows[k].processedLt.Some?) {
      FailedIsNotProcessed(s, k);
    }
    if NoneGivenUp(s) { NoDoublePayment(r); }
    forall q | q in s.external.requests && s.external.requests[q].processed ensures PaymentsOf(s, q) != {} {
      var k := ProcessedWasPaid(s, q);
    }
  }

  lemma FailedIsNotProcessed(s: Sys, k: ExtKey)
    requires k in s.external.rows && RowInv(s, k)
    ensures !(s.external.rows[k].failed && s.external.rows[k].processedLt.Some?)
  {}

  lemma ProcessedWasPaid(s: Sys, q: int) returns (k: ExtKey)
    requires RowsInv(s) && q in s.external.requests && RequestInv(s.external, q) && s.external.requests[q].processed
    ensures k in PaymentsOf(s, q)
  {
    k :| k in s.external.rows && s.external.rows[k].queryId == q && s.external.rows[k].processedLt.Some?;
    assert RowInv(s, k);
  }

  /** Expiry soundness: when the last saved block does not lag, a stale row's message is past its TTL for the next block
    * and was executed in no block or in a gap. */
  lemma {:induction false} StaleRowNeverRan(r: PaymentRun, k: ExtKey)
    requires IsRun(r) && HarmlessExpiry(r) && InSync(r.last)
    requires k in r.last.external.rows && StaleExternal(r.last.external.rows[k], r.last.now - ALLOWABLE_LAG)
    ensures k.msg in r.last.msgs && TooOld(r.last, r.last.msgs[k.msg].ttl)
    ensures NeverRuns(r.last, k.msg) || InGap(r.last, k.msg)
  {
    hide Next, PhaseInv, CheckInv, SentInv;
    RunKeepsInv(r);
    SafeNow(r.last);
    assert RowInv(r.last, k);
    UnseenBelowCutoffNeverRuns(r.last, r.last.now - ALLOWABLE_LAG, k.msg);
  }

  /** ... and no continuation of the run, however long, ever executes it. */
  lemma {:induction false} NeverRunsForever(r: PaymentRun, later: PaymentRun, m: MsgId)
    requires IsRun(later) && HarmlessExpiry(later) && Continues(r, later) && NeverRuns(r.last, m)
    ensures NeverRuns(later.last, m)
  {
    hide Inv, Next, NeverRuns, Harmless;
    if later != r {
      NeverRunsForever(r, later.before, m);
      RunKeepsInv(later.before);
      DeadMessageStaysDead(later.before.last, later.step, later.last, m);
    }
  }

  lemma DeadMessageStaysDead(s: Sys, p: Step, s': Sys, m: MsgId)
    requires Inv(s) && Next(s, p, s') && NeverRuns(s, m)
    ensures NeverRuns(s', m)
  {
    hide RowsInv, RequestsInv, CheckInv, Next, NeverRuns, ChainInv, SentInv, PhaseInv;
    if p.Mine? {
      MineSkipsDead(s, p.gen, p.runs, s', m);
    } else if p.Scan? {
      ScanSkipsDead(s, p, s', m);
    } else {
      QuietSkipsDead(s, p, s', m);
    }
  }

  lemma ScanSkipsDead(s: Sys, p: Step, s': Sys, m: MsgId)
    requires ChainInv(s) && Next(s, p, s') && p.Scan? && NeverRuns(s, m)
    ensures NeverRuns(s', m)
  {
    hide ApplyExternal, Reconciled, ChainInv, Savable;
    if s' != s {
      assert GapsInv(s) by { HasGaps(s); }
      MarkedIsSaved(s, p.at);
      LaterBlock(s, s');
    }
  }

  lemma HasGaps(s: Sys)
    requires ChainInv(s)
    ensures GapsInv(s)
  {}

  lemma QuietSkipsDead(s: Sys, p: Step, s': Sys, m: MsgId)
    requires PhaseInv(s) && Next(s, p, s') && !p.Mine? && !p.Scan? && NeverRuns(s, m)
    ensures NeverRuns(s', m)
  {
    hide CreateExternal, ApplyExternal, ExpireExternal, Reconciled, PaysTasks, Selectable, Stored, TtlAt;
  }

  // ---- The delay between check and update ----

  /** If no more time is lost than lies between two blocks, every update of the code as written is harmless. */
  lemma {:induction false} SafeWithinSpacing(r: PaymentRun)
    requires IsRun(r) && CutoffAsWritten(r) && ElapsedAtMost(r, r.last.spacing * SECOND)
    ensures HarmlessExpiry(r) && (NoneGivenUp(r.last) ==> PaidAtMostOnce(r.last))
  {
    hide PaidAtMostOnce, NoneGivenUp, IsRun, CutoffAsWritten, ElapsedAtMost;
    HarmlessWithinSpacing(r);
    if NoneGivenUp(r.last) { NoDoublePayment(r); }
  }

  lemma {:induction false} HarmlessWithinSpacing(r: PaymentRun)
    requires IsRun(r) && CutoffAsWritten(r) && ElapsedAtMost(r, r.last.spacing * SECOND)
    ensures HarmlessExpiry(r)
  {
    hide Next, Harmless, Inv;
    if r.Then? {
      SameSpacing(r.before.last, r.step, r.last);
      HarmlessWithinSpacing(r.before);
      if r.step.Expire? {
        RunKeepsInv(r.before);
        DelayedCutoff(r.before.last, r.step, r.last);
      }
    }
  }

  lemma SameSpacing(s: Sys, p: Step, s': Sys)
    requires Next(s, p, s')
    ensures s'.spacing == s.spacing
  {
    hide CreateExternal, ApplyExternal, ExpireExternal, Reconciled, PaysTasks, Selectable;
  }

  lemma DelayedCutoff(s: Sys, p: Step, s': Sys)
    requires Inv(s) && Next(s, p, s') && p.Expire? && p.cutoff == s.now - ALLOWABLE_LAG
    requires s.checkedAt.Some? ==> s.now - s.checkedAt.value <= s.spacing * SECOND
    ensures Harmless(s, p.cutoff)
  {
    hide RowsInv, RequestsInv, ChainInv, SentInv, PhaseInv;
    SafeIsHarmless(s, p.cutoff);
  }

  ghost predicate DelayedRun(r: PaymentRun, spacing: nat, delta: Time) {
    IsRun(r) && Realistic(r) && CutoffAsWritten(r) && ElapsedAtMost(r, delta) && r.last.spacing == spacing
  }

  /** As far as the clocks go: unless a payment was given up that a gap hides. */
  ghost predicate SafeWithDelay(spacing: nat, delta: Time) {
    forall r :: DelayedRun(r, spacing, delta) && NoneGivenUp(r.last) ==> PaidAtMostOnce(r.last)
  }

  /** With blocks further apart than lifetime and lag together, no delay does any harm. */
  lemma {:induction false} SafeWhenWide(r: PaymentRun)
    requires IsRun(r) && Wide(r.last)
    ensures WideInv(r.last) && (NoneGivenUp(r.last) ==> PaidAtMostOnce(r.last))
  {
    hide Next, WideInv, PaidAtMostOnce, NoneGivenUp;
    match r {
      case Start(s) => WideInit(s);
      case Then(b, p, s) =>
        SameSpacing(b.last, p, s);
        SafeWhenWide(b);
        WideStep(b.last, p, s);
    }
    if NoneGivenUp(r.last) { WidePaidAtMostOnce(r.last); }
  }

  /** The exact threshold: over all realistic runs with a given least block spacing, the cutoff as written never
    * leads to a double payment if and only if the delay does not exceed the spacing, or blocks are so far apart that
    * the processor, in sync, never pays again while an earlier message can run. */
  lemma SafeIff(spacing: nat, delta: Time)
    requires delta >= 0
    ensures SafeWithDelay(spacing, delta) <==>
      delta <= spacing * SECOND || spacing * SECOND > LIFETIME + ALLOWABLE_LAG
  {
    hide IsRun, PaidAtMostOnce, Realistic, CutoffAsWritten, ElapsedAtMost, WideInv, NoneGivenUp;
    if delta <= spacing * SECOND {
      forall r | DelayedRun(r, spacing, delta) && NoneGivenUp(r.last) ensures PaidAtMostOnce(r.last) {
        ElapsedWeaken(r, delta, spacing * SECOND);
        SafeWithinSpacing(r);
      }
    } else if spacing * SECOND > LIFETIME + ALLOWABLE_LAG {
      forall r | DelayedRun(r, spacing, delta) && NoneGivenUp(r.last) ensures PaidAtMostOnce(r.last) {
        SafeWhenWide(r);
      }
    } else {
      var r := DoublePaymentRun(spacing);
      ElapsedWeaken(r, spacing * SECOND + 1, delta);
    }
  }

  lemma {:induction false} ElapsedWeaken(r: PaymentRun, d: Time, e: Time)
    requires ElapsedAtMost(r, d) && d <= e
    ensures ElapsedAtMost(r, e)
  {
    if r.Then? { ElapsedWeaken(r.before, d, e); }
  }

  // ---- A double payment ----

  const DEST: Address := Addr(seq(256, i => false))
  const REQUEST := Request(Ton, 5, DEST, false, [], false, false)
  const TASKS := [ExternalTask(0, Ton, 5, DEST, false, [])]

  /** A step of the witness. */
  lemma Grow(r: PaymentRun, p: Step, s: Sys, spacing: nat, delta: Time) returns (r': PaymentRun)
    requires DelayedRun(r, spacing, delta) && Next(r.last, p, s) && s.spacing == spacing
    requires p.Expire? ==> p.cutoff == r.last.now - ALLOWABLE_LAG
    requires p.Expire? && r.last.checkedAt.Some? ==> r.last.now - r.last.checkedAt.value <= delta
    requires p.Mine? ==> RealisticBlock(r.last, p.gen, p.runs)
    ensures DelayedRun(r', spacing, delta) && r'.last == s
    ensures HarmlessExpiry(r) && !p.Expire? ==> HarmlessExpiry(r')
  {
    hide Next;
    r' := Then(r, p, s);
  }

  /** One nanosecond more than the block spacing is enough. The first message lives as long as the block after the
    * last saved one may take; expiry gives it up a nanosecond past that, its request is paid again, and both run. */
  lemma DoublePaymentRun(spacing: nat) returns (r: PaymentRun)
    requires spacing * SECOND <= LIFETIME + ALLOWABLE_LAG
    ensures DelayedRun(r, spacing, spacing * SECOND + 1) && r.last.gaps == {} && NoneGivenUp(r.last)
    ensures !PaidAtMostOnce(r.last)
  {
    hide DelayedRun, PaidAtMostOnce, CreateExternal, ExpireExternal, Selectable, TtlAt;
    var gap := spacing * SECOND;
    var m1, m2 := MsgId(1), MsgId(2);
    r := NextRound(spacing, m1);
    r := Execute(r, m1, 2 * gap + LIFETIME, spacing, gap + 1);
    TtlOfSeconds(3 * spacing + 116);
    var later := 3 * gap + 116 * SECOND;
    r := Pay(r, m2, later, spacing, gap + 1);
    r := Execute(r, m2, later, spacing, gap + 1);
    PaidTwice(r.last, m1, m2);
  }

  /** The request was paid by a message, the message given up, and a new round has begun. */
  lemma NextRound(spacing: nat, m: MsgId) returns (r: PaymentRun)
    requires spacing * SECOND <= LIFETIME + ALLOWABLE_LAG
    ensures var gap := spacing * SECOND;
      && DelayedRun(r, spacing, gap + 1) && r.last.phase == Awake
           && r.last.now == 2 * gap + LIFETIME + ALLOWABLE_LAG + 1
      && r.last.blocks == [0, gap + LIFETIME] && r.last.gaps == {} && r.last.sent == {m} && r.last.executed == map[]
      && r.last.msgs == map[m := Message(2 * gap, 2 * gap + LIFETIME, map[DEST := 0])]
      && Selectable(r.last.external, TASKS) && forall n :: n != m ==> FreshRows(r.last.external, TASKS, n)
  {
    hide DelayedRun, PaidAtMostOnce, CreateExternal, ExpireExternal, Selectable, FreshRows, TtlAt;
    var gap := spacing * SECOND;
    var x0 := External(map[0 := REQUEST], map[]);
    var g := gap + LIFETIME;
    TtlOfSeconds(2 * spacing);
    Selectable0(x0);
    r := Requested(spacing, gap + 1);
    r := Wake(r, spacing, gap + 1);
    r := Pay(r, m, 2 * gap, spacing, gap + 1);
    r := SaveEmpty(r, g, g + ALLOWABLE_LAG, spacing, gap + 1);
    r := Wake(r, spacing, gap + 1);
    r := CheckAndExpire(r, spacing, gap + 1);
    Reopened(x0, m, 2 * gap + LIFETIME, r.last.now - ALLOWABLE_LAG);
  }

  lemma TtlOfSeconds(n: nat)
    ensures TtlAt(n * SECOND) == n * SECOND + LIFETIME
  {
    assert n * SECOND + LIFETIME == (n + 50) * SECOND;
  }

  /** The service runs, in sync with its first saved block, and has one request. */
  lemma Requested(spacing: nat, delta: Time) returns (r: PaymentRun)
    ensures DelayedRun(r, spacing, delta) && HarmlessExpiry(r)
    ensures r.last == Sys(External(map[0 := REQUEST], map[]), 0, spacing, [0], 1, {}, map[], {}, map[], Idle, None)
  {
    var s0 := Sys(External(map[], map[]), 0, spacing, [], 0, {}, map[], {}, map[], Idle, None);
    r := Start(s0);
    var s1 := s0.(blocks := [0]);
    assert s0.blocks + [0] == [0];
    r := Grow(r, Mine(0, map[]), s1, spacing, delta);
    var s2 := s1.(saved := 1);
    assert s1.gaps + Between(0, 0) == {};
    r := Grow(r, Scan(0, []), s2, spacing, delta);
    r := Grow(r, CreateRequest(0, REQUEST), s2.(external := External(map[0 := REQUEST], map[])), spacing, delta);
  }

  lemma Wake(r: PaymentRun, spacing: nat, delta: Time) returns (r': PaymentRun)
    requires DelayedRun(r, spacing, delta) && r.last.phase == Idle && InSync(r.last)
    ensures DelayedRun(r', spacing, delta) && r'.last == r.last.(phase := Awake)
    ensures HarmlessExpiry(r) ==> HarmlessExpiry(r')
  {
    hide IsRun, Realistic, CutoffAsWritten, ElapsedAtMost;
    r' := Grow(r, WaitSync, r.last.(phase := Awake), spacing, delta);
  }

  /** One round of the withdrawal processor at a later instant: select, build, persist, send. */
  lemma Pay(r: PaymentRun, m: MsgId, at: Time, spacing: nat, delta: Time) returns (r': PaymentRun)
    requires DelayedRun(r, spacing, delta) && r.last.phase == Awake && r.last.now <= at
    requires Selectable(r.last.external, TASKS) && m !in r.last.msgs && FreshRows(r.last.external, TASKS, m)
    ensures DelayedRun(r', spacing, delta)
    ensures HarmlessExpiry(r) ==> HarmlessExpiry(r')
    ensures r'.last == r.last.(external := CreateExternal(r.last.external, TASKS, m, TtlAt(at)).value, now := at,
                               msgs := r.last.msgs[m := Message(at, TtlAt(at), map[DEST := 0])],
                               sent := r.last.sent + {m}, phase := Idle)
  {
    hide IsRun, Realistic, CutoffAsWritten, ElapsedAtMost, Selectable, TtlAt, SetProcessing, NewRows;
    var s0 := r.last.(now := at);
    r' := Grow(r, Tick(at), s0, spacing, delta);
    var s1 := s0.(phase := Selected(TASKS));
    r' := Grow(r', Select(TASKS), s1, spacing, delta);
    var s2 := s1.(msgs := s1.msgs[m := Message(at, TtlAt(at), map[DEST := 0])], phase := Built(m, TASKS));
    assert TASKS[0] in TASKS && BuiltNow(s1, Message(at, TtlAt(at), map[DEST := 0]));
    r' := Grow(r', Build(m), s2, spacing, delta);
    var s3 := s2.(external := CreateExternal(s2.external, TASKS, m, TtlAt(at)).value, phase := Persisted(m));
    r' := Grow(r', Persist, s3, spacing, delta);
    r' := Grow(r', Send, s3.(sent := s3.sent + {m}, phase := Idle), spacing, delta);
  }

  /** A block without our messages is generated and saved. */
  lemma SaveEmpty(r: PaymentRun, gen: Time, at: Time, spacing: nat, delta: Time) returns (r': PaymentRun)
    requires DelayedRun(r, spacing, delta) && r.last.executed == map[]
      && r.last.saved == |r.last.blocks| > 0 && r.last.gaps == {}
    requires gen % SECOND == 0 && r.last.blocks[|r.last.blocks| - 1] + spacing * SECOND <= gen <= at && r.last.now <= at
    ensures DelayedRun(r', spacing, delta)
    ensures HarmlessExpiry(r) ==> HarmlessExpiry(r')
    ensures r'.last == r.last.(now := at, blocks := r.last.blocks + [gen], saved := r.last.saved + 1)
  {
    hide IsRun, Realistic, CutoffAsWritten, ElapsedAtMost;
    var s0 := r.last.(now := at);
    r' := Grow(r, Tick(at), s0, spacing, delta);
    var s1 := s0.(blocks := s0.blocks + [gen]);
    assert s0.executed + map[] == s0.executed;
    r' := Grow(r', Mine(gen, map[]), s1, spacing, delta);
    assert s1.gaps + Between(s1.saved, s1.saved) == {};
    r' := Grow(r', Scan(s1.saved, []), s1.(saved := s1.saved + 1), spacing, delta);
  }

  /** The expiry processor checks at the last good instant and updates one nanosecond more than the spacing later. */
  lemma CheckAndExpire(r: PaymentRun, spacing: nat, delta: Time) returns (r': PaymentRun)
    requires delta == spacing * SECOND + 1 && DelayedRun(r, spacing, delta) && InSync(r.last)
    ensures DelayedRun(r', spacing, delta)
    ensures var u := r.last.now + spacing * SECOND + 1;
      r'.last == r.last.(external := ExpireExternal(r.last.external, u - ALLOWABLE_LAG), now := u, checkedAt := None)
  {
    hide IsRun, Realistic, CutoffAsWritten, ElapsedAtMost, ExpireExternal;
    var s0 := r.last.(checkedAt := Some(r.last.now));
    r' := Grow(r, CheckSync, s0, spacing, delta);
    var u := r.last.now + spacing * SECOND + 1;
    var s1 := s0.(now := u);
    r' := Grow(r', Tick(u), s1, spacing, delta);
    var s2 := s1.(external := ExpireExternal(s1.external, u - ALLOWABLE_LAG), checkedAt := None);
    r' := Grow(r', Expire(u - ALLOWABLE_LAG), s2, spacing, delta);
  }

  /** The next block executes a message and pays its destination. */
  lemma Execute(r: PaymentRun, m: MsgId, gen: Time, spacing: nat, delta: Time) returns (r': PaymentRun)
    requires DelayedRun(r, spacing, delta) && |r.last.blocks| > 0
    requires gen % SECOND == 0 && r.last.blocks[|r.last.blocks| - 1] + spacing * SECOND <= gen <= r.last.now
    requires m in r.last.sent && m in r.last.msgs && m !in r.last.executed
    requires r.last.msgs[m].builtAt <= gen <= r.last.msgs[m].ttl && DEST in r.last.msgs[m].pays
    ensures DelayedRun(r', spacing, delta)
    ensures HarmlessExpiry(r) ==> HarmlessExpiry(r')
    ensures r'.last == r.last.(blocks := r.last.blocks + [gen],
                               executed := r.last.executed[m := Execution(|r.last.blocks|, {DEST})])
  {
    hide IsRun, Realistic, CutoffAsWritten, ElapsedAtMost;
    var runs := map[m := Execution(|r.last.blocks|, {DEST})];
    assert r.last.executed + runs == r.last.executed[m := Execution(|r.last.blocks|, {DEST})];
    var s := r.last.(blocks := r.last.blocks + [gen], executed := r.last.executed + runs);
    r' := Grow(r, Mine(gen, runs), s, spacing, delta);
  }

  lemma Selectable0(x: External)
    requires x == External(map[0 := REQUEST], map[])
    ensures Selectable(x, TASKS) && forall m :: FreshRows(x, TASKS, m)
  {}

  lemma Reopened(x: External, m: MsgId, ttl: Time, cutoff: Time)
    requires x == External(map[0 := REQUEST], map[]) && ttl < cutoff
    ensures CreateExternal(x, TASKS, m, ttl).Ok?
    ensures var y := ExpireExternal(CreateExternal(x, TASKS, m, ttl).value, cutoff);
      Selectable(y, TASKS) && forall n :: n != m ==> FreshRows(y, TASKS, n)
  {
    var z := CreateExternal(x, TASKS, m, ttl).value;
    var k := ExtKey(m, DEST);
    assert TASKS[0] in TASKS && k in z.rows;
    assert z.rows[k] == ExtRow(0, ttl, None, false, false);
    assert StaleExternal(z.rows[k], cutoff) && 0 in StaleQueries(z, cutoff);
  }

  lemma PaidTwice(s: Sys, m: MsgId, n: MsgId)
    requires m != n
    requires forall i :: i in {m, n} ==>
      i in s.msgs && s.msgs[i].pays == map[DEST := 0] && i in s.executed && s.executed[i].paid == {DEST}
    ensures !PaidAtMostOnce(s)
  {
    assert ExtKey(m, DEST) in PaymentsOf(s, 0) && ExtKey(n, DEST) in PaymentsOf(s, 0);
  }
}
