/** Payments when blocks are further apart than a message's lifetime plus the allowed lag. Then a round that starts in
  * sync starts when every earlier message is past its TTL or seen, and no expiry, however late, leads to a second
  * payment. */
module PaymentWide {
  import opened Base
  import opened Ledger
  import opened Payments
  import opened PaymentSafety

  predicate Wide(s: Sys) { s.spacing * SECOND > LIFETIME + ALLOWABLE_LAG }

  /** Out, not executed up to the greatest saved block, and not too old for the next one. */
  predicate Live(s: Sys, m: MsgId) {
    m in s.msgs && Outstanding(s, m) && !Passed(s, m) && !TooOld(s, s.msgs[m].ttl)
  }

  /** As in the guarded runs, but a row may have failed too early: its message is still live. */
  ghost predicate WideRow(s: Sys, k: ExtKey)
    requires k in s.external.rows
  {
    var r := s.external.rows[k];
    && k.msg in s.msgs && k.to in s.msgs[k.msg].pays
    && r.queryId == s.msgs[k.msg].pays[k.to] && r.expiredAt == s.msgs[k.msg].ttl
    && r.queryId in s.external.requests
    && (r.failed ==> r.processedLt.None?)
    && (if r.failed then
          || NeverRuns(s, k.msg) || Live(s, k.msg)
          || (Passed(s, k.msg) && (Seen(s, k.msg) ==> k.to !in s.executed[k.msg].paid))
        else if r.processedLt.Some? then
          Seen(s, k.msg) && k.to in s.executed[k.msg].paid
        else !Seen(s, k.msg))
  }

  ghost predicate WideRows(s: Sys) {
    forall k :: k in s.external.rows ==> WideRow(s, k)
  }

  /** At most one message is live, and none while a new round has begun. */
  predicate OneLive(s: Sys) {
    forall m :: m in s.msgs && Live(s, m) ==>
      && !s.phase.Awake? && !s.phase.Selected? && (s.phase.Built? || s.phase.Persisted? ==> s.phase.msg == m)
      && forall n :: n in s.msgs && Live(s, n) ==> n == m
  }

  /** No request of a live message has another row that has not failed. */
  ghost predicate LiveAlone(s: Sys) {
    var rows := s.external.rows;
    forall k, l :: k in rows && l in rows && k != l && Live(s, k.msg) && rows[k].queryId == rows[l].queryId ==>
      rows[l].failed
  }

  /** A message pays a request at one destination, and lives no longer than from now. */
  predicate MessageOk(s: Sys, m: MsgId)
    requires m in s.msgs
  {
    && s.msgs[m].ttl <= s.now + LIFETIME
    && forall a, b :: a in s.msgs[m].pays && b in s.msgs[m].pays && s.msgs[m].pays[a] == s.msgs[m].pays[b] ==> a == b
  }

  predicate MessagesOk(s: Sys) {
    forall m :: m in s.msgs ==> MessageOk(s, m)
  }

  ghost predicate WideInv(s: Sys) {
    && ChainInv(s) && WideRows(s) && SentInv(s) && RequestsInv(s.external) && PhaseInv(s)
    && MessagesOk(s) && OneLive(s) && LiveAlone(s)
  }

  // ---- The property ----

  lemma PaidRow(s: Sys, q: int, k: ExtKey)
    requires WideInv(s) && k in PaymentsOf(s, q)
    ensures k in s.external.rows && s.external.rows[k].queryId == q
    ensures s.external.rows[k].failed ==> Live(s, k.msg) || GivenUp(s, k)
  {
    hide RequestsInv, PhaseInv, OneLive, LiveAlone, MessagesOk, TooOld, Outstanding;
    assert Stored(s, k.msg);
    assert WideRow(s, k);
  }

  lemma WidePaidAtMostOnce(s: Sys)
    requires WideInv(s) && NoneGivenUp(s)
    ensures PaidAtMostOnce(s)
  {
    hide ChainInv, SentInv, PhaseInv, WideRows, Live, GivenUp;
    forall q, k, l | k in PaymentsOf(s, q) && l in PaymentsOf(s, q) ensures k == l {
      PaidRow(s, q, k);
      PaidRow(s, q, l);
      if s.external.rows[k].failed { SameMessage(s, q, k, l); }
      else if s.external.rows[l].failed { SameMessage(s, q, l, k); }
      else {
        RowHasRequest(s, k);
        assert RequestInv(s.external, q);
        assert Holds(s.external, k, q) && Holds(s.external, l, q);
      }
    }
  }

  lemma RowHasRequest(s: Sys, k: ExtKey)
    requires WideRows(s) && k in s.external.rows
    ensures s.external.rows[k].queryId in s.external.requests
  {
    assert WideRow(s, k);
  }

  lemma SameMessage(s: Sys, q: int, k: ExtKey, l: ExtKey)
    requires WideInv(s) && k in PaymentsOf(s, q) && l in PaymentsOf(s, q)
    requires k in s.external.rows && l in s.external.rows
      && s.external.rows[k].queryId == q == s.external.rows[l].queryId
    requires Live(s, k.msg) && (s.external.rows[l].failed ==> Live(s, l.msg))
    ensures k == l
  {
    hide ChainInv, SentInv, PhaseInv, WideRows, Live, RequestsInv;
    assert MessageOk(s, k.msg);
  }

  // ---- Steps ----

  lemma WideInit(s: Sys)
    requires Init(s)
    ensures WideInv(s)
  {}

  /** Nothing becomes live, and what was and is no more never ran. */
  lemma SameWideRow(s: Sys, s': Sys, k: ExtKey)
    requires ChainInv(s) && k in s.external.rows && WideRow(s, k)
    requires k in s'.external.rows && s'.external.rows[k] == s.external.rows[k]
    requires s.external.requests.Keys <= s'.external.requests.Keys
    requires k.msg in s'.msgs && s'.msgs[k.msg] == s.msgs[k.msg] && s'.executed == s.executed && s.sent <= s'.sent
    requires s'.spacing == s.spacing && s'.blocks == s.blocks && s'.saved == s.saved && s'.gaps == s.gaps
    requires Outstanding(s', k.msg) ==> Outstanding(s, k.msg)
    ensures WideRow(s', k)
  {}

  lemma SameLive(s: Sys, s': Sys, m: MsgId)
    requires m in s.msgs && m in s'.msgs && s'.msgs[m] == s.msgs[m] && s'.executed == s.executed
    requires s'.spacing == s.spacing && s'.blocks == s.blocks && s'.saved == s.saved
    requires Outstanding(s', m) ==> Outstanding(s, m)
    ensures Live(s', m) ==> Live(s, m)
  {}

  lemma WideCreateRequest(s: Sys, q: int, r: Request, s': Sys)
    requires WideInv(s) && Next(s, CreateRequest(q, r), s')
    ensures WideInv(s')
  {
    hide WideRow, RequestsInv, RequestInv, CreateExternal, ApplyExternal, ExpireExternal, Reconciled, PaysTasks, Live;
    forall k | k in s'.external.rows ensures WideRow(s', k) { KnownMessage(s, k); SameWideRow(s, s', k); }
    forall m | m in s'.msgs ensures Live(s', m) ==> Live(s, m) { SameLive(s, s', m); }
    forall k | k in s.external.rows ensures k.msg in s.msgs { KnownMessage(s, k); }
    WideNewRequest(s, q, s'.external);
  }

  lemma KnownMessage(s: Sys, k: ExtKey)
    requires WideRows(s) && k in s.external.rows
    ensures k.msg in s.msgs
  {
    assert WideRow(s, k);
  }

  lemma WideNewRequest(s: Sys, q: int, x': External)
    requires WideRows(s) && RequestsInv(s.external) && q !in s.external.requests
    requires x'.rows == s.external.rows && x'.requests.Keys == s.external.requests.Keys + {q}
    requires !x'.requests[q].processing && !x'.requests[q].processed
    requires forall p :: p in s.external.requests ==> x'.requests[p] == s.external.requests[p]
    ensures RequestsInv(x')
  {
    forall k | k in x'.rows ensures x'.rows[k].queryId != q { assert WideRow(s, k); }
    forall p | p in x'.requests ensures RequestInv(x', p) {
      if p != q {
        assert RequestInv(s.external, p);
        forall k ensures Holds(x', k, p) == Holds(s.external, k, p) {}
      }
    }
  }

  /** In sync, nothing sent before is live: it is past its TTL by the next block, or was seen. */
  lemma SyncedNoneLive(s: Sys, m: MsgId)
    requires Wide(s) && InSync(s) && m in s.msgs && MessageOk(s, m)
    ensures !Live(s, m)
  {}

  lemma WideQuiet(s: Sys, p: Step, s': Sys)
    requires Wide(s) && WideInv(s) && Next(s, p, s') && QuietStep(p)
    ensures WideInv(s')
  {
    hide ChainInv, WideRows, SentInv, RequestsInv, PhaseInv, MessagesOk, OneLive, LiveAlone, Next, Live;
    QuietChain(s, p, s');
    QuietPhase(s, p, s');
    forall m | m in s'.msgs ensures Live(s', m) ==> Live(s, m) { QuietLive(s, p, s', m); }
    QuietWideRows(s, p, s');
    QuietMessages(s, p, s');
    StillOneLive(s, p, s');
    StillAlone(s, p, s');
  }

  lemma QuietLive(s: Sys, p: Step, s': Sys, m: MsgId)
    requires Next(s, p, s') && QuietStep(p) && m in s'.msgs
    ensures m in s.msgs && (Live(s', m) ==> Live(s, m))
  {
    hide CreateExternal, ApplyExternal, ExpireExternal, Reconciled, PaysTasks, Selectable, TooOld, InSync;
    QuietEffect(s, p, s');
    SameAge(s, s', s.msgs[m].ttl);
  }

  lemma SameAge(s: Sys, s': Sys, ttl: Time)
    requires QuietlyRelated(s, s')
    ensures TooOld(s', ttl) == TooOld(s, ttl)
  {}

  lemma QuietWideRows(s: Sys, p: Step, s': Sys)
    requires ChainInv(s) && WideRows(s) && Next(s, p, s') && QuietStep(p)
    ensures WideRows(s')
  {
    hide CreateExternal, ApplyExternal, ExpireExternal, Reconciled, PaysTasks, Selectable, WideRow, ChainInv, InSync;
    forall k | k in s'.external.rows ensures WideRow(s', k) {
      KnownMessage(s, k);
      SameWideRow(s, s', k);
    }
  }

  lemma QuietMessages(s: Sys, p: Step, s': Sys)
    requires MessagesOk(s) && Next(s, p, s') && QuietStep(p)
    ensures MessagesOk(s')
  {
    hide CreateExternal, ApplyExternal, ExpireExternal, Reconciled, PaysTasks, Selectable, MessageOk, InSync;
    forall m | m in s'.msgs ensures MessageOk(s', m) { SameMessageOk(s, s', m); }
  }

  lemma StillAlone(s: Sys, p: Step, s': Sys)
    requires WideRows(s) && LiveAlone(s) && Next(s, p, s') && QuietStep(p)
    requires forall m :: m in s'.msgs && Live(s', m) ==> Live(s, m)
    ensures LiveAlone(s')
  {
    hide Next, Live, WideRow;
    QuietEffect(s, p, s');
    forall k | k in s.external.rows ensures k.msg in s.msgs { KnownMessage(s, k); }
  }

  lemma StillOneLive(s: Sys, p: Step, s': Sys)
    requires Wide(s) && MessagesOk(s) && OneLive(s) && Next(s, p, s') && QuietStep(p)
    requires forall m :: m in s'.msgs && Live(s', m) ==> Live(s, m)
    ensures OneLive(s')
  {
    hide Live, Selectable, MessageOk;
    if p.WaitSync? {
      forall m | m in s.msgs ensures !Live(s, m) { SyncedNoneLive(s, m); }
    }
  }

  lemma WideBuild(s: Sys, m: MsgId, s': Sys)
    requires WideInv(s) && Next(s, Build(m), s')
    ensures WideInv(s')
  {
    hide WideRow, RequestsInv, CreateExternal, ApplyExternal, ExpireExternal, Reconciled, Live, MessageOk;
    forall k | k in s'.external.rows ensures WideRow(s', k) && k.msg in s.msgs {
      KnownMessage(s, k);
      SameWideRow(s, s', k);
    }
    forall n | n in s.msgs ensures Live(s', n) ==> Live(s, n) { SameLive(s, s', n); }
    forall n | n in s'.sent ensures Stored(s', n) { assert Stored(s, n); }
    forall n | n in s.msgs ensures MessageOk(s', n) { assert MessageOk(s, n); SameMessageOk(s, s', n); }
    NewMessageOk(s, m, s');
  }

  lemma SameMessageOk(s: Sys, s': Sys, m: MsgId)
    requires m in s.msgs && m in s'.msgs && s'.msgs[m] == s.msgs[m] && s'.now >= s.now && MessageOk(s, m)
    ensures MessageOk(s', m)
  {}

  lemma NewMessageOk(s: Sys, m: MsgId, s': Sys)
    requires s.phase.Selected? && Selectable(s.external, s.phase.tasks) && m in s'.msgs && s'.now == s.now
    requires BuiltNow(s, s'.msgs[m])
    ensures MessageOk(s', m)
  {
    var pays := s'.msgs[m].pays;
    forall a, b | a in pays && b in pays && pays[a] == pays[b] ensures a == b {
      var t :| t in s.phase.tasks && t.dest == a;
      var u :| u in s.phase.tasks && u.dest == b;
      assert pays[t.dest] == t.queryId && pays[u.dest] == u.queryId;
    }
  }

  lemma WidePersist(s: Sys, s': Sys)
    requires WideInv(s) && Next(s, Persist, s')
    ensures WideInv(s')
  {
    hide WideRow, RequestInv, NewRows, SetProcessing, Live, MessageOk;
    var x := s.external;
    forall m | m in s.msgs ensures Live(s', m) ==> Live(s, m) { SameLive(s, s', m); }
    forall m | m in s.msgs ensures MessageOk(s', m) { SameMessageOk(s, s', m); }
    assert FreshRows(x, s.phase.tasks, s.phase.msg);
    WidePersistRows(s, s');
    WidePersistAlone(s, s');
    SameRequests(x.requests, TaskQueries(s.phase.tasks), true);
    forall q | q in s'.external.requests ensures RequestInv(s'.external, q) {
      PersistRequest(x, s.phase.tasks, s.phase.msg, s.msgs[s.phase.msg].ttl, q);
    }
  }

  lemma WidePersistRows(s: Sys, s': Sys)
    requires ChainInv(s) && WideRows(s) && SentInv(s) && PhaseInv(s)
    requires Next(s, Persist, s') && FreshRows(s.external, s.phase.tasks, s.phase.msg)
    ensures WideRows(s') && SentInv(s') && Stored(s', s.phase.msg)
  {
    hide NewRows, SetProcessing, WideRow;
    var m := s.phase.msg;
    PersistedRows(s.external, s.phase.tasks, m, s.msgs[m].ttl);
    SameRequests(s.external.requests, TaskQueries(s.phase.tasks), true);
    forall k | k in s'.external.rows ensures WideRow(s', k) {
      if k in s.external.rows {
        KnownMessage(s, k);
        SameWideRow(s, s', k);
      } else {
        WidePersistedRow(s, s', k);
      }
    }
    forall n | n in s'.sent ensures Stored(s', n) { assert Stored(s, n); }
    forall a | a in s.msgs[m].pays ensures ExtKey(m, a) in s'.external.rows {}
  }

  lemma WidePersistedRow(s: Sys, s': Sys, k: ExtKey)
    requires SentInv(s) && PhaseInv(s) && ChainInv(s)
    requires Next(s, Persist, s') && FreshRows(s.external, s.phase.tasks, s.phase.msg)
    requires k in s'.external.rows && k !in s.external.rows
    ensures WideRow(s', k)
  {
    hide NewRows, SetProcessing;
    PersistedRows(s.external, s.phase.tasks, s.phase.msg, s.msgs[s.phase.msg].ttl);
    SameRequests(s.external.requests, TaskQueries(s.phase.tasks), true);
  }

  /** The requests of a batch were open, so all their older rows have failed. */
  lemma WidePersistAlone(s: Sys, s': Sys)
    requires WideInv(s) && Next(s, Persist, s') && FreshRows(s.external, s.phase.tasks, s.phase.msg)
    ensures LiveAlone(s')
  {
    hide NewRows, SetProcessing, Live, WideRow;
    var x, x', m := s.external, s'.external, s.phase.msg;
    PersistedRows(x, s.phase.tasks, m, s.msgs[m].ttl);
    forall k, l | k in x'.rows && l in x'.rows && k != l && Live(s', k.msg) && x'.rows[k].queryId == x'.rows[l].queryId
      ensures x'.rows[l].failed
    {
      if k in x.rows { KnownMessage(s, k); }
      assert k.msg in s.msgs;
      SameLive(s, s', k.msg);
      assert k.msg == m;
      PersistedAlone(s, s', k, l);
    }
  }

  lemma PersistedAlone(s: Sys, s': Sys, k: ExtKey, l: ExtKey)
    requires RequestsInv(s.external) && PhaseInv(s) && Next(s, Persist, s')
    requires FreshRows(s.external, s.phase.tasks, s.phase.msg)
    requires k in s'.external.rows && l in s'.external.rows && k != l && k.msg == s.phase.msg
    requires s'.external.rows[k].queryId == s'.external.rows[l].queryId
    ensures s'.external.rows[l].failed
  {
    hide NewRows, SetProcessing, RequestsInv, PaysTasks;
    var x, x', m := s.external, s'.external, s.phase.msg;
    PersistedRows(x, s.phase.tasks, m, s.msgs[m].ttl);
    var t :| t in s.phase.tasks && k == ExtKey(m, t.dest);
    if l in x.rows { OpenRowsFailed(x, t.queryId, l); }
  }

  lemma OpenRowsFailed(x: External, q: int, l: ExtKey)
    requires RequestsInv(x) && q in x.requests && !x.requests[q].processing && l in x.rows && x.rows[l].queryId == q
    ensures x.rows[l].failed
  {
    assert RequestInv(x, q);
    assert !Holds(x, l, q);
  }

  lemma WideMine(s: Sys, gen: Time, runs: map<MsgId, Execution>, s': Sys)
    requires WideInv(s) && Next(s, Mine(gen, runs), s')
    ensures WideInv(s')
  {
    hide RequestsInv, CreateExternal, ApplyExternal, ExpireExternal, Reconciled, PaysTasks, Selectable, WideRow, Stored,
         Live, MessageOk;
    forall k | k in s'.external.rows ensures WideRow(s', k) && k.msg in s.msgs {
      KnownMessage(s, k);
      WideMineRow(s, gen, runs, s', k);
    }
    forall m | m in s.msgs ensures Live(s', m) ==> Live(s, m) { MineLive(s, gen, runs, s', m); }
    forall m | m in s.msgs ensures MessageOk(s', m) { SameMessageOk(s, s', m); }
    forall m | m in s'.msgs ensures Stored(s', m) == Stored(s, m) { SameStored(s, s', m); }
    MineKeepsChain(s, gen, runs, s');
  }

  lemma WideMineRow(s: Sys, gen: Time, runs: map<MsgId, Execution>, s': Sys, k: ExtKey)
    requires ChainInv(s) && k in s.external.rows && WideRow(s, k) && Next(s, Mine(gen, runs), s')
    ensures WideRow(s', k)
  {
    hide CreateExternal, ApplyExternal, ExpireExternal, Reconciled, Selectable, BuiltNow;
    if NeverRuns(s, k.msg) { MineSkipsDead(s, gen, runs, s', k.msg); }
  }

  lemma MineLive(s: Sys, gen: Time, runs: map<MsgId, Execution>, s': Sys, m: MsgId)
    requires ChainInv(s) && m in s.msgs && Next(s, Mine(gen, runs), s')
    ensures Live(s', m) ==> Live(s, m)
  {
    hide CreateExternal, ApplyExternal, ExpireExternal, Reconciled, Selectable, BuiltNow;
  }

  /** However harmful an expiry, what it fails is of a message that never runs or is still live. */
  lemma WideExpire(s: Sys, cutoff: Time, s': Sys)
    requires WideInv(s) && Next(s, Expire(cutoff), s')
    ensures WideInv(s')
  {
    hide CreateExternal, ApplyExternal, Reconciled, PaysTasks, RequestInv, WideRow, Live, MessageOk;
    forall k | k in s'.external.rows ensures WideRow(s', k) && k.msg in s.msgs {
      KnownMessage(s, k);
      WideExpireRow(s, cutoff, s', k);
    }
    forall m | m in s.msgs ensures Live(s', m) ==> Live(s, m) { SameLive(s, s', m); }
    forall m | m in s.msgs ensures MessageOk(s', m) { SameMessageOk(s, s', m); }
    forall q | q in s'.external.requests ensures RequestInv(s'.external, q) { ExpireRequest(s.external, cutoff, q); }
    forall n | n in s'.sent ensures Stored(s', n) { assert Stored(s, n); }
  }

  lemma WideExpireRow(s: Sys, cutoff: Time, s': Sys, k: ExtKey)
    requires ChainInv(s) && k in s.external.rows && WideRow(s, k)
    requires s' == s.(external := ExpireExternal(s.external, cutoff), checkedAt := None)
    ensures WideRow(s', k)
  {}

  // ---- Scanning ----

  lemma WideScan(s: Sys, n: nat, evs: seq<ExternalWithdrawal>, s': Sys)
    requires WideInv(s) && Next(s, Scan(n, evs), s')
    ensures WideInv(s')
  {
    hide ChainInv, WideRows, SentInv, RequestsInv, PhaseInv, CheckInv, Reconciled, ApplyExternal, AppliedTo, OpenRow,
         Savable, OneLive, LiveAlone, Live, MessagesOk;
    if ApplyExternal(s.external, evs).Ok? {
      WideAccepted(s, n, evs);
      MarkedKeepsChain(s, n, s');
      WideScanRows(s, n, evs, s');
      ScanRequests(s, evs, s'.external);
      ScanStored(s, evs, s');
      ScanPhase(s, evs, s');
      forall m | m in s'.msgs ensures Live(s', m) ==> Live(s, m) { ScanLive(s, n, s', m); }
      ScanMessages(s, s');
      ScanAlone(s, evs, s');
      ScanOneLive(s, s');
    }
  }

  lemma ScanOneLive(s: Sys, s': Sys)
    requires OneLive(s) && s'.msgs == s.msgs && s'.phase == s.phase
    requires forall m :: m in s'.msgs && Live(s', m) ==> Live(s, m)
    ensures OneLive(s')
  {
    hide Live;
  }

  lemma ScanMessages(s: Sys, s': Sys)
    requires MessagesOk(s) && s'.msgs == s.msgs && s'.now == s.now
    ensures MessagesOk(s')
  {
    hide MessageOk;
    forall m | m in s'.msgs ensures MessageOk(s', m) { SameMessageOk(s, s', m); }
  }

  lemma WideExecutedRow(s: Sys, n: nat, m: MsgId, a: Address)
    requires ChainInv(s) && WideRows(s) && SentInv(s) && Savable(s, n)
    requires m in s.executed && s.executed[m].block == n && a in s.msgs[m].pays
    ensures ExtKey(m, a) in s.external.rows && s.external.rows[ExtKey(m, a)].processedLt.None?
  {
    hide TooOld, Outstanding;
    assert Stored(s, m);
    assert WideRow(s, ExtKey(m, a));
  }

  lemma {:induction false} WideAccepted(s: Sys, n: nat, evs: seq<ExternalWithdrawal>)
    requires ChainInv(s) && WideRows(s) && SentInv(s) && Savable(s, n) && Reconciled(s, n, evs)
    requires ApplyExternal(s.external, evs).Ok?
    ensures AppliedTo(s.external, evs, ApplyExternal(s.external, evs).value)
    ensures forall e :: e in evs ==> OpenRow(s.external, EventKey(e))
  {
    hide ApplyExternal, AppliedTo, ChainInv, WideRows, SentInv;
    AcceptedAreOpen(s.external, evs);
    ApplyDistinct(s.external, evs);
    forall e | e in evs ensures OpenRow(s.external, EventKey(e)) { WideExecutedRow(s, n, e.msg, e.to); }
  }

  lemma WideScanRows(s: Sys, n: nat, evs: seq<ExternalWithdrawal>, s': Sys)
    requires ChainInv(s) && WideRows(s) && Savable(s, n) && Reconciled(s, n, evs)
    requires AppliedTo(s.external, evs, s'.external) && s' == Marked(s, n).(external := s'.external)
    requires forall e :: e in evs ==> OpenRow(s.external, EventKey(e))
    ensures WideRows(s')
  {
    hide ChainInv, WideRow, Reconciled, Marked;
    forall k | k in s'.external.rows ensures WideRow(s', k) { WideScanRow(s, n, evs, s', k); }
  }

  lemma WideScanRow(s: Sys, n: nat, evs: seq<ExternalWithdrawal>, s': Sys, k: ExtKey)
    requires ChainInv(s) && Savable(s, n) && Reconciled(s, n, evs)
    requires AppliedTo(s.external, evs, s'.external) && s' == Marked(s, n).(external := s'.external)
    requires forall e :: e in evs ==> OpenRow(s.external, EventKey(e))
    requires k in s.external.rows && WideRow(s, k)
    ensures WideRow(s', k)
  {
    hide Savable, SetProcessing;
    MarkedIsSaved(s, n);
    assert Saved(s', n) && forall b: nat :: Saved(s', b) <==> Saved(s, b) || b == n by {
      forall b: nat ensures Saved(s', b) == Saved(Marked(s, n), b) {}
    }
    LaterBlock(s, s');
    if RowInv(s, k) {
      ScanRow(s, n, evs, s', k);
    } else {
      LiveRow(s, n, evs, s', k);
    }
  }

  /** The row of a live message has failed, so no accepted event is about it. */
  lemma LiveRow(s: Sys, n: nat, evs: seq<ExternalWithdrawal>, s': Sys, k: ExtKey)
    requires ChainInv(s) && Savable(s, n) && Reconciled(s, n, evs)
    requires k in s.external.rows && WideRow(s, k) && !RowInv(s, k)
    requires AppliedTo(s.external, evs, s'.external) && s' == Marked(s, n).(external := s'.external)
    requires forall e :: e in evs ==> OpenRow(s.external, EventKey(e))
    requires (forall b: nat :: Saved(s', b) <==> Saved(s, b) || b == n) && s.saved <= s'.saved <= |s.blocks|
    requires 0 < s.saved ==> s.blocks[s.saved - 1] <= s'.blocks[s'.saved - 1]
    ensures WideRow(s', k)
  {
    var m := k.msg;
    assert k.to in s.msgs[m].pays && s.external.rows[k].failed && Live(s, m);
    forall e | e in evs ensures EventKey(e) != k {}
    assert s'.external.rows[k] == s.external.rows[k];
    assert m in s.executed ==> s.executed[m].block != n;
    assert Outstanding(s', m) && (Seen(s', m) ==> Seen(s, m));
    if m in s.executed && s'.saved <= s.executed[m].block { UnpassedIsYoung(s, s', m); }
  }

  lemma UnpassedIsYoung(s: Sys, s': Sys, m: MsgId)
    requires ChainInv(s) && m in s.executed && s'.saved <= s.executed[m].block && s'.blocks == s.blocks
      && s'.spacing == s.spacing
    ensures !TooOld(s', s.msgs[m].ttl)
  {
    if 0 < s'.saved { assert s.blocks[s'.saved - 1] + s.spacing * SECOND <= s.blocks[s.executed[m].block]; }
  }

  lemma ScanLive(s: Sys, n: nat, s': Sys, m: MsgId)
    requires ChainInv(s) && Savable(s, n) && m in s.msgs && s' == Marked(s, n).(external := s'.external)
    ensures Live(s', m) ==> Live(s, m)
  {
    MarkedIsSaved(s, n);
    LaterBlock(s, s');
  }

  lemma ScanAlone(s: Sys, evs: seq<ExternalWithdrawal>, s': Sys)
    requires LiveAlone(s) && WideRows(s) && AppliedTo(s.external, evs, s'.external)
    requires forall m :: m in s.msgs && Live(s', m) ==> Live(s, m)
    ensures LiveAlone(s')
  {
    hide Live, WideRow;
    var rows, rows' := s.external.rows, s'.external.rows;
    forall k | k in rows' ensures k.msg in s.msgs && rows'[k].queryId == rows[k].queryId
      && (rows[k].failed ==> rows'[k].failed) {
      KnownMessage(s, k);
      if e :| e in evs && EventKey(e) == k { assert rows'[k] == Updated(rows[k], e); }
    }
  }

  /** Every step of a wide run keeps the invariant, expiry with any cutoff included. */
  lemma WideStep(s: Sys, p: Step, s': Sys)
    requires Wide(s) && WideInv(s) && Next(s, p, s')
    ensures WideInv(s')
  {
    hide WideInv, Next, Wide;
    match p
    case CreateRequest(q, r) => WideCreateRequest(s, q, r, s');
    case Build(m) => WideBuild(s, m, s');
    case Persist => WidePersist(s, s');
    case Mine(gen, runs) => WideMine(s, gen, runs, s');
    case Scan(n, evs) => WideScan(s, n, evs, s');
    case Expire(cutoff) => WideExpire(s, cutoff, s');
    case _ => WideQuiet(s, p, s');
  }
}
