/** The external-withdrawal protocol over whole runs: the withdrawal processor, the expiry processor,
  * the block scanner and the blockchain interleave step by step over the tables.
  *
  * The chain is an environment. It executes a sent message at most once and never in a block
  * generated after the message's TTL, and successive blocks are at least `spacing` seconds apart.
  *
  * The scanner may save any unsaved block. A block that it logs and passes over, because it cannot read it or because
  * the tables reject some event in it, is left behind as a gap when a later one is saved; the sync tests look at the
  * greatest saved number only. */
module Payments {
  import opened Base
  import opened Ledger

  /** A built highload message: which request it pays at each destination. */
  datatype Message = Message(builtAt: Time, ttl: Time, pays: map<Address, int>)

  /** Where a message was executed and which of its destinations were really paid. */
  datatype Execution = Execution(block: nat, paid: set<Address>)

  /** Program counter of the withdrawal processor. */
  datatype Phase =
    | Idle
    | Awake                            // past the sync check, perhaps long ago
    | Selected(tasks: seq<ExternalTask>)
    | Built(msg: MsgId, tasks: seq<ExternalTask>)
    | Persisted(msg: MsgId)

  datatype Sys = Sys(
    external: External,
    now: Time,
    spacing: nat,                      // least seconds between successive blocks
    blocks: seq<Time>,                 // generation times, oldest first
    saved: nat,                        // one past the greatest number the scanner has saved
    gaps: set<nat>,                    // smaller numbers it has not
    msgs: map<MsgId, Message>,
    sent: set<MsgId>,
    executed: map<MsgId, Execution>,
    phase: Phase,
    checkedAt: Option<Time>)           // when the expiry processor last passed its sync check

  datatype Step =
    | CreateRequest(queryId: int, request: Request)
    | Tick(later: Time)
    | WaitSync
    | Select(tasks: seq<ExternalTask>)
    | Build(msg: MsgId)
    | Persist
    | Send
    | Crash
    | Mine(gen: Time, runs: map<MsgId, Execution>)
    | Scan(at: nat, events: seq<ExternalWithdrawal>)
    | CheckSync
    | Expire(cutoff: Time)

  ghost predicate Init(s: Sys) {
    && s.external == External(map[], map[])
    && s.blocks == [] && s.saved == 0 && s.gaps == {} && s.msgs == map[] && s.sent == {} && s.executed == map[]
    && s.phase == Idle && s.checkedAt == None
  }

  /** What the task query may return: open requests only, one per destination. */
  predicate Selectable(x: External, tasks: seq<ExternalTask>) {
    && DistinctDests(tasks)
    && (forall i, j :: 0 <= i < j < |tasks| ==> tasks[i].queryId != tasks[j].queryId)
    && forall t :: t in tasks ==> t.queryId in x.requests && !x.requests[t.queryId].processing
  }

  ghost predicate PaysTasks(m: Message, tasks: seq<ExternalTask>) {
    && (forall t :: t in tasks ==> t.dest in m.pays && m.pays[t.dest] == t.queryId)
    && forall a :: a in m.pays ==> exists t :: t in tasks && t.dest == a
  }

  ghost predicate BuiltNow(s: Sys, m: Message)
    requires s.phase.Selected?
  {
    m.builtAt == s.now && m.ttl == TtlAt(s.now) && PaysTasks(m, s.phase.tasks)
  }

  /** The scanner's yield for block `n`: one event per row of every message executed in it. */
  ghost predicate Reconciled(s: Sys, n: nat, evs: seq<ExternalWithdrawal>) {
    && (forall i, j :: 0 <= i < j < |evs| ==> EventKey(evs[i]) != EventKey(evs[j]))
    && (forall e :: e in evs ==>
          && e.msg in s.executed && s.executed[e.msg].block == n
          && e.msg in s.msgs && e.to in s.msgs[e.msg].pays
          && (e.isFailed <==> e.to !in s.executed[e.msg].paid))
    && forall m, a :: m in s.executed && s.executed[m].block == n && m in s.msgs && a in s.msgs[m].pays ==>
         exists e :: e in evs && EventKey(e) == ExtKey(m, a)
  }

  function EventKey(e: ExternalWithdrawal): ExtKey { ExtKey(e.msg, e.to) }

  function ApplyExternal(x: External, evs: seq<ExternalWithdrawal>): Result<External, Rejection>
    decreases |evs|
  {
    if evs == [] then Ok(x)
    else
      match ApplyExternal(x, evs[..|evs| - 1])
      case Ok(y) => UpdateExternal(y, evs[|evs| - 1])
      case Err(r) => Err(r)
  }

  // ---- Saved blocks ----

  predicate Saved(s: Sys, n: nat) { n < s.saved && n !in s.gaps }

  predicate Savable(s: Sys, n: nat) { n in s.gaps || s.saved <= n < |s.blocks| }

  /** Block `n` is saved: a gap is closed, or all unsaved blocks before it become gaps. */
  function Marked(s: Sys, n: nat): Sys {
    if n in s.gaps then s.(gaps := s.gaps - {n}) else s.(saved := n + 1, gaps := s.gaps + Between(s.saved, n))
  }

  predicate InSync(s: Sys) {
    s.saved > 0 && s.saved <= |s.blocks| && s.now - s.blocks[s.saved - 1] <= ALLOWABLE_LAG
  }

  ghost predicate Next(s: Sys, p: Step, s': Sys) {
    match p
    case CreateRequest(q, r) =>
      && q !in s.external.requests && !r.processing && !r.processed
      && s' == s.(external := s.external.(requests := s.external.requests[q := r]))
    case Tick(t) => t >= s.now && s' == s.(now := t)
    case WaitSync => s.phase == Idle && InSync(s) && s' == s.(phase := Awake)
    case Select(tasks) =>
      s.phase == Awake && Selectable(s.external, tasks) && s' == s.(phase := Selected(tasks))
    case Build(m) =>
      && s.phase.Selected? && m !in s.msgs
      && exists msg: Message :: BuiltNow(s, msg)
           && s' == s.(msgs := s.msgs[m := msg], phase := Built(m, s.phase.tasks))
    case Persist =>
      && s.phase.Built? && s.phase.msg in s.msgs
      && (match CreateExternal(s.external, s.phase.tasks, s.phase.msg, s.msgs[s.phase.msg].ttl)
          case Ok(x) => s' == s.(external := x, phase := Persisted(s.phase.msg))
          case Err(_) => s' == s.(phase := Idle))
    case Send =>
      s.phase.Persisted? && s' == s.(sent := s.sent + {s.phase.msg}, phase := Idle)
    case Crash => s' == s.(phase := Idle, checkedAt := None)
    case Mine(gen, runs) =>
      && gen % SECOND == 0 && (|s.blocks| > 0 ==> s.blocks[|s.blocks| - 1] + s.spacing * SECOND <= gen)
      && (forall m :: m in runs ==>
            && m in s.sent && m in s.msgs && m !in s.executed
            && gen <= s.msgs[m].ttl && runs[m].block == |s.blocks| && runs[m].paid <= s.msgs[m].pays.Keys)
      && s' == s.(blocks := s.blocks + [gen], executed := s.executed + runs)
    case Scan(at, evs) =>
      && Savable(s, at) && Reconciled(s, at, evs)
      && (match ApplyExternal(s.external, evs)
          case Ok(x) => s' == Marked(s, at).(external := x)
          case Err(_) => s' == s)
    case CheckSync => InSync(s) && s' == s.(checkedAt := Some(s.now))
    case Expire(cutoff) =>
      && s.checkedAt.Some?
      && s' == s.(external := ExpireExternal(s.external, cutoff), checkedAt := None)
  }

  // ---- The property ----

  function PaymentsOf(s: Sys, q: int): set<ExtKey> {
    set m, a | m in s.executed && a in s.executed[m].paid && m in s.msgs && a in s.msgs[m].pays
      && s.msgs[m].pays[a] == q
      :: ExtKey(m, a)
  }

  ghost predicate PaidAtMostOnce(s: Sys) {
    forall q, k, l :: k in PaymentsOf(s, q) && l in PaymentsOf(s, q) ==> k == l
  }

  // ---- The invariant ----

  predicate GapsInv(s: Sys) {
    && s.saved <= |s.blocks| && (forall n :: n in s.gaps ==> n < s.saved) && (s.saved > 0 ==> s.saved - 1 !in s.gaps)
  }

  ghost predicate ChainInv(s: Sys) {
    && GapsInv(s)
    && (forall i, j :: 0 <= i < j < |s.blocks| ==> s.blocks[i] + s.spacing * SECOND <= s.blocks[j])
    && s.sent <= s.msgs.Keys
    && forall m :: m in s.executed ==>
         && m in s.sent && s.executed[m].block < |s.blocks|
         && s.blocks[s.executed[m].block] <= s.msgs[m].ttl
         && s.executed[m].paid <= s.msgs[m].pays.Keys
  }

  /** Sent, or about to be. */
  predicate Outstanding(s: Sys, m: MsgId) {
    m in s.sent || ((s.phase.Built? || s.phase.Persisted?) && s.phase.msg == m)
  }

  /** The earliest time the block after the last saved one can have. */
  predicate TooOld(s: Sys, ttl: Time) {
    0 < s.saved <= |s.blocks| && ttl < s.blocks[s.saved - 1] + s.spacing * SECOND
  }

  /** A message that was not executed in any block and, too old or never sent, will not be. */
  predicate NeverRuns(s: Sys, m: MsgId) {
    m in s.msgs && m !in s.executed && (TooOld(s, s.msgs[m].ttl) || !Outstanding(s, m))
  }

  ghost predicate RowInv(s: Sys, k: ExtKey)
    requires k in s.external.rows
  {
    var r := s.external.rows[k];
    && k.msg in s.msgs && k.to in s.msgs[k.msg].pays
    && r.queryId == s.msgs[k.msg].pays[k.to] && r.expiredAt == s.msgs[k.msg].ttl
    && r.queryId in s.external.requests
    && (r.failed ==> r.processedLt.None?)
    && (if r.failed then
          NeverRuns(s, k.msg) || (Passed(s, k.msg) && (Seen(s, k.msg) ==> k.to !in s.executed[k.msg].paid))
        else if r.processedLt.Some? then
          Seen(s, k.msg) && k.to in s.executed[k.msg].paid
        else !Seen(s, k.msg))
  }

  /** Executed no later than in the greatest block that the scanner has saved ... */
  predicate Passed(s: Sys, m: MsgId) {
    m in s.executed && s.executed[m].block < s.saved
  }

  /** ... and in a block that it has saved. */
  predicate Seen(s: Sys, m: MsgId) {
    m in s.executed && Saved(s, s.executed[m].block)
  }

  predicate InGap(s: Sys, m: MsgId) { m in s.executed && s.executed[m].block in s.gaps }

  /** A payment that a gap hides. */
  predicate Lost(s: Sys, k: ExtKey) { InGap(s, k.msg) && k.to in s.executed[k.msg].paid }

  predicate NoneLost(s: Sys) {
    forall m :: m in s.executed && InGap(s, m) ==> s.executed[m].paid == {}
  }

  /** A row that failed although its payment was made. */
  predicate GivenUp(s: Sys, k: ExtKey)
    requires k in s.external.rows
  {
    s.external.rows[k].failed && Lost(s, k)
  }

  predicate NoneGivenUp(s: Sys) {
    forall k :: k in s.external.rows ==> !GivenUp(s, k)
  }

  /** Row `k` keeps request `q` from being selected again. */
  predicate Holds(x: External, k: ExtKey, q: int) {
    k in x.rows && x.rows[k].queryId == q && !x.rows[k].failed
  }

  /** A request is processing iff exactly one of its rows has not failed, and processed iff that row was processed. */
  ghost predicate RequestInv(x: External, q: int)
    requires q in x.requests
  {
    && (x.requests[q].processing <==> exists k :: Holds(x, k, q))
    && (forall k, l :: Holds(x, k, q) && Holds(x, l, q) ==> k == l)
    && (x.requests[q].processed <==> exists k :: k in x.rows && x.rows[k].queryId == q && x.rows[k].processedLt.Some?)
  }

  ghost predicate PhaseInv(s: Sys) {
    && (s.phase.Selected? || s.phase.Built? ==> Selectable(s.external, s.phase.tasks))
    && (s.phase.Built? ==>
          && s.phase.msg in s.msgs && s.phase.msg !in s.sent
          && PaysTasks(s.msgs[s.phase.msg], s.phase.tasks)
          && forall k :: k in s.external.rows ==> k.msg != s.phase.msg)
    && (s.phase.Persisted? ==> s.phase.msg in s.msgs && Stored(s, s.phase.msg))
  }

  predicate Stored(s: Sys, m: MsgId)
    requires m in s.msgs
  {
    forall a :: a in s.msgs[m].pays ==> ExtKey(m, a) in s.external.rows
  }

  ghost predicate RowsInv(s: Sys) {
    forall k :: k in s.external.rows ==> RowInv(s, k)
  }

  ghost predicate RequestsInv(x: External) {
    forall q :: q in x.requests ==> RequestInv(x, q)
  }

  /** Persist-before-send. */
  predicate SentInv(s: Sys) {
    s.sent <= s.msgs.Keys && forall m :: m in s.sent ==> Stored(s, m)
  }

  predicate CheckInv(s: Sys) {
    s.checkedAt.Some? ==>
      SafeCutoff(s, s.checkedAt.value - ALLOWABLE_LAG + s.spacing * SECOND) && s.checkedAt.value <= s.now
  }

  ghost predicate Inv(s: Sys) {
    ChainInv(s) && RowsInv(s) && SentInv(s) && RequestsInv(s.external) && PhaseInv(s) && CheckInv(s)
  }

  /** A cutoff no later than the next block after the last saved one can be. */
  predicate SafeCutoff(s: Sys, cutoff: Time) {
    0 < s.saved <= |s.blocks| && cutoff <= s.blocks[s.saved - 1] + s.spacing * SECOND
  }

  /** A table row that expiry must not fail: still open, of a message that is out, with an expiry that the next block
    * can meet, and not executed in a block the scanner has left behind. */
  predicate Exposed(s: Sys, k: ExtKey, cutoff: Time)
    requires k in s.external.rows
  {
    && StaleExternal(s.external.rows[k], cutoff) && Outstanding(s, k.msg)
    && !TooOld(s, s.external.rows[k].expiredAt) && !Passed(s, k.msg)
  }

  /** No row is exposed. */
  predicate Harmless(s: Sys, cutoff: Time) {
    forall k :: k in s.external.rows ==> !Exposed(s, k, cutoff)
  }

  lemma PaidRowHolds(s: Sys, q: int, k: ExtKey)
    requires Inv(s) && k in PaymentsOf(s, q)
    ensures k in s.external.rows && s.external.rows[k].queryId == q && q in s.external.requests
    ensures GivenUp(s, k) || Holds(s.external, k, q)
  {
    assert Stored(s, k.msg);
    assert RowInv(s, k);
  }

  lemma InvImpliesPaidAtMostOnce(s: Sys)
    requires Inv(s) && NoneGivenUp(s)
    ensures PaidAtMostOnce(s)
  {
    hide GivenUp, ChainInv, RowsInv, SentInv, PhaseInv, CheckInv, PaymentsOf;
    forall q, k, l | k in PaymentsOf(s, q) && l in PaymentsOf(s, q)
      ensures k == l
    {
      PaidRowHolds(s, q, k);
      PaidRowHolds(s, q, l);
      assert RequestInv(s.external, q);
    }
  }
}
