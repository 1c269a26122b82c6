/** No request is ever paid twice: every step keeps the invariant of the payment protocol. */
module PaymentSafety {
  import opened Base
  import opened Ledger
  import opened Payments

  /** A row of the task query: an open request, the oldest one of its destination. */
  predicate OldestOpen(x: External, t: ExternalTask) {
    && t.queryId in x.requests && !x.requests[t.queryId].processing
    && t == ExternalTask(t.queryId, x.requests[t.queryId].currency, x.requests[t.queryId].amount,
                         x.requests[t.queryId].dest, x.requests[t.queryId].bounceable, x.requests[t.queryId].comment)
    && forall q :: q in x.requests && !x.requests[q].processing && x.requests[q].dest == t.dest ==> t.queryId <= q
  }

  /** What the query returns, one task per destination, may be selected: no request occurs twice. */
  lemma QueryIsSelectable(x: External, tasks: seq<ExternalTask>)
    requires DistinctDests(tasks) && forall i :: 0 <= i < |tasks| ==> OldestOpen(x, tasks[i])
    ensures Selectable(x, tasks)
  {
    forall i, j | 0 <= i < j < |tasks| ensures tasks[i].queryId != tasks[j].queryId {
      assert OldestOpen(x, tasks[i]) && OldestOpen(x, tasks[j]);
    }
    forall t | t in tasks ensures t.queryId in x.requests && !x.requests[t.queryId].processing {
      var i :| 0 <= i < |tasks| && tasks[i] == t;
      assert OldestOpen(x, tasks[i]);
    }
  }

  lemma InitInv(s: Sys)
    requires Init(s)
    ensures Inv(s)
  {}

  lemma KeepsCreateRequest(s: Sys, q: int, r: Request, s': Sys)
    requires Inv(s) && Next(s, CreateRequest(q, r), s')
    ensures Inv(s')
  {
    hide RowInv, RequestsInv, RequestInv, CreateExternal, ApplyExternal, ExpireExternal, Reconciled, PaysTasks;
    forall k | k in s'.external.rows ensures RowInv(s', k) { SameRow(s, s', k); }
    NewRequestInv(s, q, s'.external);
  }

  lemma NewRequestInv(s: Sys, q: int, x': External)
    requires RowsInv(s) && RequestsInv(s.external) && q !in s.external.requests
    requires x'.rows == s.external.rows && x'.requests.Keys == s.external.requests.Keys + {q}
    requires !x'.requests[q].processing && !x'.requests[q].processed
    requires forall p :: p in s.external.requests ==> x'.requests[p] == s.external.requests[p]
    ensures RequestsInv(x')
  {
    forall k | k in x'.rows ensures x'.rows[k].queryId != q { assert RowInv(s, k); }
    forall p | p in x'.requests ensures RequestInv(x', p) {
      if p != q {
        assert RequestInv(s.external, p);
        forall k ensures Holds(x', k, p) == Holds(s.external, k, p) {}
      }
    }
  }

  /** A step that leaves the chain and the tables as they are. */
  predicate QuietStep(p: Step) {
    p.Tick? || p.WaitSync? || p.Select? || p.Send? || p.Crash? || p.CheckSync?
  }

  lemma KeepsQuietStep(s: Sys, p: Step, s': Sys)
    requires Inv(s) && Next(s, p, s') && QuietStep(p)
    ensures Inv(s')
  {
    hide ChainInv, RowsInv, SentInv, RequestsInv, PhaseInv, CheckInv, Next;
    QuietChain(s, p, s');
    QuietRows(s, p, s');
    QuietPhase(s, p, s');
    QuietCheck(s, p, s');
  }

  lemma QuietChain(s: Sys, p: Step, s': Sys)
    requires ChainInv(s) && SentInv(s) && PhaseInv(s) && Next(s, p, s') && QuietStep(p)
    ensures ChainInv(s') && SentInv(s') && s'.external == s.external
  {
    hide Next, Stored, GapsInv;
    QuietEffect(s, p, s');
    forall m | m in s'.msgs ensures Stored(s', m) == Stored(s, m) { SameStored(s, s', m); }
    GapsOnly(s, s');
  }

  lemma QuietEffect(s: Sys, p: Step, s': Sys)
    requires Next(s, p, s') && QuietStep(p)
    ensures QuietlyRelated(s, s')
    ensures s'.sent == s.sent || (p.Send? && s.phase.Persisted? && s'.sent == s.sent + {s.phase.msg})
  {
    hide CreateExternal, ApplyExternal, ExpireExternal, Reconciled, PaysTasks, Selectable, InSync;
  }

  predicate QuietlyRelated(s: Sys, s': Sys) {
    && s'.external == s.external && s'.msgs == s.msgs && s'.executed == s.executed
    && s'.spacing == s.spacing && s'.blocks == s.blocks && s'.saved == s.saved && s'.gaps == s.gaps
  }

  lemma QuietRows(s: Sys, p: Step, s': Sys)
    requires RowsInv(s) && Next(s, p, s') && QuietStep(p)
    ensures RowsInv(s')
  {
    hide CreateExternal, ApplyExternal, ExpireExternal, Reconciled, PaysTasks, Selectable, RowInv, InSync;
    forall k | k in s'.external.rows ensures RowInv(s', k) { SameRow(s, s', k); }
  }

  lemma QuietPhase(s: Sys, p: Step, s': Sys)
    requires PhaseInv(s) && Next(s, p, s') && QuietStep(p)
    ensures PhaseInv(s')
  {
    hide CreateExternal, ApplyExternal, ExpireExternal, Reconciled, PaysTasks, Selectable, Stored, InSync;
    forall m | m in s'.msgs ensures Stored(s', m) == Stored(s, m) { SameStored(s, s', m); }
  }

  lemma QuietCheck(s: Sys, p: Step, s': Sys)
    requires CheckInv(s) && Next(s, p, s') && QuietStep(p)
    ensures CheckInv(s')
  {
    hide CreateExternal, ApplyExternal, ExpireExternal, Reconciled, PaysTasks, Selectable, SafeCutoff, InSync;
    SafeNow(s);
    SameCutoff(s, s', s.now - ALLOWABLE_LAG + s.spacing * SECOND);
    if s.checkedAt.Some? { SameCutoff(s, s', s.checkedAt.value - ALLOWABLE_LAG + s.spacing * SECOND); }
  }

  /** A row keeps its invariant while the chain, as it sees it, stays the same and its message comes no nearer to being
    * sent. */
  lemma SameRow(s: Sys, s': Sys, k: ExtKey)
    requires k in s.external.rows && RowInv(s, k)
    requires s'.external.rows == s.external.rows && s.external.requests.Keys <= s'.external.requests.Keys
    requires s'.msgs == s.msgs && s'.executed == s.executed
    requires s'.spacing == s.spacing && s'.blocks == s.blocks && s'.saved == s.saved && s'.gaps == s.gaps
    requires Outstanding(s', k.msg) ==> Outstanding(s, k.msg)
    ensures RowInv(s', k)
  {}

  lemma SameStored(s: Sys, s': Sys, m: MsgId)
    requires m in s.msgs && s'.external == s.external && s'.msgs == s.msgs
    ensures Stored(s', m) == Stored(s, m)
  {}

  lemma SameCutoff(s: Sys, s': Sys, cutoff: Time)
    requires s'.spacing == s.spacing && s'.blocks == s.blocks && s'.saved == s.saved
    ensures SafeCutoff(s', cutoff) == SafeCutoff(s, cutoff)
  {}

  /** When the sync test passes, the clock minus the lag is a safe cutoff, with the block spacing to spare. */
  lemma SafeNow(s: Sys)
    ensures InSync(s) ==> SafeCutoff(s, s.now - ALLOWABLE_LAG + s.spacing * SECOND)
  {}

  lemma GapsOnly(s: Sys, s': Sys)
    requires s'.blocks == s.blocks && s'.saved == s.saved && s'.gaps == s.gaps
    ensures GapsInv(s') == GapsInv(s)
  {}

  lemma BuildRow(s: Sys, m: MsgId, s': Sys, k: ExtKey)
    requires ChainInv(s) && k in s.external.rows && RowInv(s, k) && s.phase.Selected? && m !in s.msgs && m in s'.msgs
    requires s' == s.(msgs := s.msgs[m := s'.msgs[m]], phase := Built(m, s.phase.tasks))
    ensures RowInv(s', k) && k.msg != m
  {
    hide GapsInv;
  }

  lemma KeepsBuild(s: Sys, m: MsgId, s': Sys)
    requires Inv(s) && Next(s, Build(m), s')
    ensures Inv(s')
  {
    hide RequestsInv, CreateExternal, ApplyExternal, ExpireExternal, Reconciled, PaysTasks, Selectable, RowInv, GapsInv,
         SafeCutoff;
    forall k | k in s'.external.rows ensures RowInv(s', k) && k.msg != m { BuildRow(s, m, s', k); }
    forall n | n in s'.sent ensures Stored(s', n) { assert Stored(s, n); }
    assert GapsInv(s') == GapsInv(s) by { GapsOnly(s, s'); }
    if s.checkedAt.Some? { SameCutoff(s, s', s.checkedAt.value - ALLOWABLE_LAG + s.spacing * SECOND); }
  }

  lemma KeepsMine(s: Sys, gen: Time, runs: map<MsgId, Execution>, s': Sys)
    requires Inv(s) && Next(s, Mine(gen, runs), s')
    ensures Inv(s')
  {
    hide RequestsInv, CreateExternal, ApplyExternal, ExpireExternal, Reconciled, PaysTasks, Selectable, RowInv, Stored;
    forall k | k in s'.external.rows ensures RowInv(s', k) { MineKeepsRow(s, gen, runs, s', k); }
    forall m | m in s'.msgs ensures Stored(s', m) == Stored(s, m) { SameStored(s, s', m); }
    MineKeepsChain(s, gen, runs, s');
  }

  lemma MineKeepsChain(s: Sys, gen: Time, runs: map<MsgId, Execution>, s': Sys)
    requires ChainInv(s) && Next(s, Mine(gen, runs), s')
    ensures ChainInv(s')
  {
    hide CreateExternal, ApplyExternal, ExpireExternal, Reconciled, PaysTasks, Selectable;
    Spaced(s.blocks, gen, s.spacing * SECOND);
    forall m | m in s'.executed
      ensures m in s'.sent && s'.executed[m].block < |s'.blocks| && s'.blocks[s'.executed[m].block] <= s'.msgs[m].ttl
      ensures s'.executed[m].paid <= s'.msgs[m].pays.Keys
    {
      if m in runs { assert s'.executed[m] == runs[m]; } else { assert s'.executed[m] == s.executed[m]; }
    }
  }

  lemma Spaced(blocks: seq<Time>, gen: Time, gap: Time)
    requires gap >= 0 && forall i, j :: 0 <= i < j < |blocks| ==> blocks[i] + gap <= blocks[j]
    requires |blocks| > 0 ==> blocks[|blocks| - 1] + gap <= gen
    ensures var after := blocks + [gen]; forall i, j :: 0 <= i < j < |after| ==> after[i] + gap <= after[j]
  {}

  lemma MineKeepsRow(s: Sys, gen: Time, runs: map<MsgId, Execution>, s': Sys, k: ExtKey)
    requires ChainInv(s) && k in s.external.rows && RowInv(s, k) && Next(s, Mine(gen, runs), s')
    ensures RowInv(s', k)
  {
    if NeverRuns(s, k.msg) { MineSkipsDead(s, gen, runs, s', k.msg); }
  }

  lemma MineSkipsDead(s: Sys, gen: Time, runs: map<MsgId, Execution>, s': Sys, m: MsgId)
    requires ChainInv(s) && NeverRuns(s, m) && Next(s, Mine(gen, runs), s')
    ensures m !in runs && NeverRuns(s', m)
  {
    hide CreateExternal, ApplyExternal, ExpireExternal, Reconciled, Selectable, BuiltNow;
    if TooOld(s, s.msgs[m].ttl) {
      assert s.blocks[s.saved - 1] + s.spacing * SECOND <= gen by {
        if s.saved < |s.blocks| { assert s.blocks[s.saved - 1] + s.spacing * SECOND <= s.blocks[|s.blocks| - 1]; }
      }
    }
  }

  lemma KeepsPersist(s: Sys, s': Sys)
    requires Inv(s) && Next(s, Persist, s')
    ensures Inv(s')
  {
    var x := s.external;
    if FreshRows(x, s.phase.tasks, s.phase.msg) {
      PersistRows(s, s');
      forall q | q in s'.external.requests ensures RequestInv(s'.external, q) {
        PersistRequest(x, s.phase.tasks, s.phase.msg, s.msgs[s.phase.msg].ttl, q);
      }
    }
  }

  lemma PersistRows(s: Sys, s': Sys)
    requires ChainInv(s) && RowsInv(s) && SentInv(s) && PhaseInv(s)
    requires Next(s, Persist, s') && FreshRows(s.external, s.phase.tasks, s.phase.msg)
    ensures RowsInv(s') && SentInv(s') && Stored(s', s.phase.msg)
  {
    hide NewRows, SetProcessing, RequestsInv;
    var m := s.phase.msg;
    PersistedRows(s.external, s.phase.tasks, m, s.msgs[m].ttl);
    SameRequests(s.external.requests, TaskQueries(s.phase.tasks), true);
    forall k | k in s'.external.rows ensures RowInv(s', k) {
      if k in s.external.rows { assert RowInv(s, k); } else { PersistedRow(s, s', k); }
    }
    forall n | n in s'.sent ensures Stored(s', n) { assert Stored(s, n); }
    forall a | a in s.msgs[m].pays ensures ExtKey(m, a) in s'.external.rows {}
  }

  /** The rows after a batch is persisted: the old ones and one open row per task. */
  lemma PersistedRows(x: External, tasks: seq<ExternalTask>, m: MsgId, ttl: Time)
    requires FreshRows(x, tasks, m)
    ensures var rows := CreateExternal(x, tasks, m, ttl).value.rows;
      && (forall k :: k in x.rows ==> k in rows && rows[k] == x.rows[k])
      && (forall t :: t in tasks ==>
           ExtKey(m, t.dest) in rows && rows[ExtKey(m, t.dest)] == ExtRow(t.queryId, ttl, None, false, false))
      && forall k :: k in rows && k !in x.rows ==> exists t :: t in tasks && k == ExtKey(m, t.dest)
  {
    forall t | t in tasks ensures NewRows(tasks, m, ttl)[ExtKey(m, t.dest)] ==
      ExtRow(t.queryId, ttl, None, false, false) {}
  }

  lemma PersistedRow(s: Sys, s': Sys, k: ExtKey)
    requires RowsInv(s) && SentInv(s) && PhaseInv(s) && ChainInv(s)
    requires Next(s, Persist, s') && FreshRows(s.external, s.phase.tasks, s.phase.msg)
    requires k in s'.external.rows && k !in s.external.rows
    ensures RowInv(s', k)
  {
    hide NewRows, SetProcessing;
    PersistedRows(s.external, s.phase.tasks, s.phase.msg, s.msgs[s.phase.msg].ttl);
    SameRequests(s.external.requests, TaskQueries(s.phase.tasks), true);
  }

  lemma SameRequests(requests: map<int, Request>, ids: set<int>, flag: bool)
    ensures SetProcessing(requests, ids, flag).Keys == requests.Keys
  {}

  lemma PersistedFlags(x: External, tasks: seq<ExternalTask>, m: MsgId, ttl: Time, q: int)
    requires FreshRows(x, tasks, m) && q in x.requests
    ensures var requests := CreateExternal(x, tasks, m, ttl).value.requests;
      && q in requests && requests[q].processed == x.requests[q].processed
      && (requests[q].processing <==> x.requests[q].processing || exists t :: t in tasks && t.queryId == q)
  {
    hide NewRows, FreshRows;
  }

  lemma PersistRequest(x: External, tasks: seq<ExternalTask>, m: MsgId, ttl: Time, q: int)
    requires FreshRows(x, tasks, m) && Selectable(x, tasks)
    requires q in x.requests && RequestInv(x, q)
    ensures RequestInv(CreateExternal(x, tasks, m, ttl).value, q)
  {
    hide NewRows, SetProcessing, DistinctDests;
    var x' := CreateExternal(x, tasks, m, ttl).value;
    PersistedRows(x, tasks, m, ttl);
    PersistedFlags(x, tasks, m, ttl, q);
    if t :| t in tasks && t.queryId == q {
      assert Holds(x', ExtKey(m, t.dest), q);
      forall k | Holds(x', k, q) ensures k == ExtKey(m, t.dest) {
        assert !Holds(x, k, q);
        var u :| u in tasks && k == ExtKey(m, u.dest);
        assert u == t;
      }
    } else {
      forall k ensures Holds(x', k, q) == Holds(x, k, q) {}
    }
  }

  /** A message whose TTL lies below a safe cutoff and that was not seen yet lies in a gap or can no longer run. */
  lemma UnseenBelowCutoffNeverRuns(s: Sys, cutoff: Time, m: MsgId)
    requires ChainInv(s) && SafeCutoff(s, cutoff)
    requires m in s.msgs && s.msgs[m].ttl < cutoff && !Seen(s, m)
    ensures NeverRuns(s, m) || InGap(s, m)
  {}

  /** Below a safe cutoff nothing is exposed. */
  lemma SafeIsHarmless(s: Sys, cutoff: Time)
    requires SafeCutoff(s, cutoff)
    ensures Harmless(s, cutoff)
  {}

  /** A stale row that is not exposed is of a message that lies in a gap or never runs. */
  lemma UnexposedNeverRuns(s: Sys, cutoff: Time, k: ExtKey)
    requires ChainInv(s) && k in s.external.rows && RowInv(s, k)
    requires StaleExternal(s.external.rows[k], cutoff) && !Exposed(s, k, cutoff)
    ensures NeverRuns(s, k.msg) || InGap(s, k.msg)
  {}

  lemma KeepsExpire(s: Sys, cutoff: Time, s': Sys)
    requires Inv(s) && Next(s, Expire(cutoff), s') && Harmless(s, cutoff)
    ensures Inv(s')
  {
    hide CreateExternal, ApplyExternal, Reconciled, PaysTasks, RequestInv, RowInv, Exposed;
    forall k | k in s'.external.rows ensures RowInv(s', k) { ExpireKeepsRow(s, cutoff, s', k); }
    forall q | q in s'.external.requests ensures RequestInv(s'.external, q) { ExpireRequest(s.external, cutoff, q); }
    forall n | n in s'.sent ensures Stored(s', n) { assert Stored(s, n); }
  }

  lemma ExpireKeepsRow(s: Sys, cutoff: Time, s': Sys, k: ExtKey)
    requires ChainInv(s) && k in s.external.rows && RowInv(s, k) && !Exposed(s, k, cutoff)
    requires s' == s.(external := ExpireExternal(s.external, cutoff), checkedAt := None)
    ensures RowInv(s', k)
  {
    if StaleExternal(s.external.rows[k], cutoff) { UnexposedNeverRuns(s, cutoff, k); }
  }

  predicate GivesUpNothing(s: Sys, cutoff: Time) {
    forall k :: k in s.external.rows && StaleExternal(s.external.rows[k], cutoff) ==> !Lost(s, k)
  }

  /** Exactly when expiry keeps the protocol safe: no open row it fails is of a message that is out and that the
    * next block can still execute; and exactly when it gives up no payment: none of them hides a payment in a gap. */
  lemma ExpireExact(s: Sys, cutoff: Time, s': Sys)
    requires Inv(s) && Next(s, Expire(cutoff), s')
    ensures Inv(s') <==> Harmless(s, cutoff)
    ensures NoneGivenUp(s') <==> NoneGivenUp(s) && GivesUpNothing(s, cutoff)
  {
    hide RequestsInv, PhaseInv, SentInv, ChainInv, RowInv, Exposed, CheckInv;
    ExpireGivesUp(s, cutoff, s');
    if Harmless(s, cutoff) {
      KeepsExpire(s, cutoff, s');
    } else {
      var k :| k in s.external.rows && Exposed(s, k, cutoff);
      ExposedBreaks(s, cutoff, s', k);
    }
  }

  lemma ExpireGivesUp(s: Sys, cutoff: Time, s': Sys)
    requires s' == s.(external := ExpireExternal(s.external, cutoff), checkedAt := None)
    ensures NoneGivenUp(s') <==> NoneGivenUp(s) && GivesUpNothing(s, cutoff)
  {
    hide SetProcessing, StaleExternal;
    forall k | k in s.external.rows
      ensures k in s'.external.rows && Lost(s', k) == Lost(s, k)
      ensures s'.external.rows[k].failed == (s.external.rows[k].failed || StaleExternal(s.external.rows[k], cutoff)) {}
    forall k | k in s.external.rows
      ensures GivenUp(s', k) <==> GivenUp(s, k) || (StaleExternal(s.external.rows[k], cutoff) && Lost(s, k)) {}
  }

  lemma ExposedBreaks(s: Sys, cutoff: Time, s': Sys, k: ExtKey)
    requires k in s.external.rows && RowInv(s, k) && Exposed(s, k, cutoff)
    requires s' == s.(external := ExpireExternal(s.external, cutoff), checkedAt := None)
    ensures k in s'.external.rows && !RowInv(s', k)
  {}

  lemma ExpireRequest(x: External, cutoff: Time, q: int)
    requires q in x.requests && RequestInv(x, q)
    ensures RequestInv(ExpireExternal(x, cutoff), q)
  {
    var x' := ExpireExternal(x, cutoff);
    forall k ensures Holds(x', k, q) <==> Holds(x, k, q) && !StaleExternal(x.rows[k], cutoff) {}
    forall k | k in x.rows ensures k in x'.rows && x'.rows[k].processedLt == x.rows[k].processedLt
      && x'.rows[k].queryId == x.rows[k].queryId {}
    if q in StaleQueries(x, cutoff) {
      var k :| k in x.rows && StaleExternal(x.rows[k], cutoff) && x.rows[k].queryId == q;
      assert Holds(x, k, q);
    }
  }

  // ---- Scanning a block ----

  /** The rows and requests after a list of events with pairwise different keys. */
  ghost predicate AppliedTo(x: External, evs: seq<ExternalWithdrawal>, x': External) {
    && x'.rows.Keys == x.rows.Keys && x'.requests.Keys == x.requests.Keys
    && (forall e :: e in evs ==> EventKey(e) in x.rows && x'.rows[EventKey(e)] == Updated(x.rows[EventKey(e)], e))
    && (forall k :: k in x.rows && (forall e :: e in evs ==> EventKey(e) != k) ==> x'.rows[k] == x.rows[k])
    && (forall q :: q in x.requests ==>
          && (x'.requests[q].processing <==> x.requests[q].processing && !Touches(x, evs, q, true))
          && (x'.requests[q].processed <==> x.requests[q].processed || Touches(x, evs, q, false)))
  }

  function Updated(r: ExtRow, e: ExternalWithdrawal): ExtRow {
    if e.isFailed then r.(failed := true) else r.(processedLt := Some(e.lt))
  }

  ghost predicate Touches(x: External, evs: seq<ExternalWithdrawal>, q: int, failed: bool) {
    exists e :: e in evs && e.isFailed == failed && EventKey(e) in x.rows && x.rows[EventKey(e)].queryId == q
  }

  lemma {:induction false} ApplyDistinct(x: External, evs: seq<ExternalWithdrawal>)
    requires forall i, j :: 0 <= i < j < |evs| ==> EventKey(evs[i]) != EventKey(evs[j])
    requires forall e :: e in evs ==> EventKey(e) in x.rows && !x.rows[EventKey(e)].failed
    ensures ApplyExternal(x, evs).Ok? && AppliedTo(x, evs, ApplyExternal(x, evs).value)
    decreases |evs|
  {
    hide AppliedTo, UpdateExternal;
    if evs == [] {
      NothingApplied(x);
    } else {
      var init, e := evs[..|evs| - 1], evs[|evs| - 1];
      assert evs == init + [e];
      ApplyDistinct(x, init);
      forall d | d in init ensures EventKey(d) != EventKey(e) {}
      AppliedStep(x, init, ApplyExternal(x, init).value, e);
    }
  }

  lemma NothingApplied(x: External)
    ensures AppliedTo(x, [], x)
  {}

  lemma AppliedStep(x: External, init: seq<ExternalWithdrawal>, y: External, e: ExternalWithdrawal)
    requires AppliedTo(x, init, y) && EventKey(e) in x.rows && !x.rows[EventKey(e)].failed
    requires forall d :: d in init ==> EventKey(d) != EventKey(e)
    ensures UpdateExternal(y, e).Ok? && AppliedTo(x, init + [e], UpdateExternal(y, e).value)
  {
    var k, evs := EventKey(e), init + [e];
    assert y.rows[k] == x.rows[k];
    assert forall d :: d in evs <==> d in init || d == e;
    forall q, f
      ensures Touches(x, evs, q, f) <==> Touches(x, init, q, f) || (e.isFailed == f && x.rows[k].queryId == q)
    {
      assert e in evs;
    }
  }

  predicate OpenRow(x: External, k: ExtKey) {
    k in x.rows && !x.rows[k].failed && x.rows[k].processedLt.None?
  }

  lemma {:induction false} AcceptedAreOpen(x: External, evs: seq<ExternalWithdrawal>)
    requires forall i, j :: 0 <= i < j < |evs| ==> EventKey(evs[i]) != EventKey(evs[j])
    requires ApplyExternal(x, evs).Ok?
    ensures forall e :: e in evs ==> EventKey(e) in x.rows && !x.rows[EventKey(e)].failed
    decreases |evs|
  {
    if evs != [] {
      var init, e := evs[..|evs| - 1], evs[|evs| - 1];
      assert evs == init + [e];
      AcceptedAreOpen(x, init);
      ApplyDistinct(x, init);
      forall d | d in init ensures EventKey(d) != EventKey(e) {}
    }
  }

  /** A message executed in an unsaved block has all its rows, none of them processed, and none of them failed if the
    * scanner has not got to that block before. */
  lemma ExecutedRowIsOpen(s: Sys, n: nat, m: MsgId, a: Address)
    requires ChainInv(s) && RowsInv(s) && SentInv(s) && Savable(s, n)
    requires m in s.executed && s.executed[m].block == n && a in s.msgs[m].pays
    ensures ExtKey(m, a) in s.external.rows && s.external.rows[ExtKey(m, a)].processedLt.None?
    ensures s.saved <= n ==> OpenRow(s.external, ExtKey(m, a))
  {
    assert Stored(s, m);
    assert RowInv(s, ExtKey(m, a));
  }

  lemma EventsMeetRows(s: Sys, n: nat, evs: seq<ExternalWithdrawal>)
    requires ChainInv(s) && RowsInv(s) && SentInv(s) && Savable(s, n) && Reconciled(s, n, evs)
    ensures forall e :: e in evs ==>
      EventKey(e) in s.external.rows && s.external.rows[EventKey(e)].processedLt.None?
    ensures s.saved <= n ==> forall e :: e in evs ==> OpenRow(s.external, EventKey(e))
  {
    hide ChainInv, RowsInv, SentInv;
    forall e | e in evs
      ensures EventKey(e) in s.external.rows && s.external.rows[EventKey(e)].processedLt.None?
      ensures s.saved <= n ==> OpenRow(s.external, EventKey(e)) {
      ExecutedRowIsOpen(s, n, e.msg, e.to);
    }
  }

  /** The scanner is never stopped by "invalid behavior of the expiration processor" or a missing row in a block it has
    * not got to before; a gap it accepts exactly when none of the gap's rows has failed in the meantime. */
  lemma {:induction false} ScanAccepted(s: Sys, n: nat, evs: seq<ExternalWithdrawal>)
    requires Inv(s) && Savable(s, n) && Reconciled(s, n, evs)
    ensures s.saved <= n ==> ApplyExternal(s.external, evs).Ok?
    ensures ApplyExternal(s.external, evs).Ok? <==>
      forall m, a :: m in s.executed && s.executed[m].block == n && m in s.msgs && a in s.msgs[m].pays ==>
        ExtKey(m, a) in s.external.rows && !s.external.rows[ExtKey(m, a)].failed
  {
    hide Inv, Savable, ApplyExternal;
    assert ChainInv(s) && RowsInv(s) && SentInv(s) by { InvParts(s); }
    EventsMeetRows(s, n, evs);
    if forall e :: e in evs ==> !s.external.rows[EventKey(e)].failed {
      ApplyDistinct(s.external, evs);
    }
    if ApplyExternal(s.external, evs).Ok? { AcceptedAreOpen(s.external, evs); }
  }

  lemma InvParts(s: Sys)
    requires Inv(s)
    ensures ChainInv(s) && RowsInv(s) && SentInv(s)
  {
    hide ChainInv, RowsInv, SentInv, RequestsInv, PhaseInv, CheckInv;
  }

  lemma KeepsScan(s: Sys, n: nat, evs: seq<ExternalWithdrawal>, s': Sys)
    requires Inv(s) && Next(s, Scan(n, evs), s')
    ensures Inv(s')
  {
    hide ChainInv, RowsInv, SentInv, RequestsInv, PhaseInv, CheckInv, Reconciled, ApplyExternal, AppliedTo, OpenRow,
         Savable;
    if ApplyExternal(s.external, evs).Ok? {
      AcceptedEvents(s, n, evs);
      MarkedKeepsChain(s, n, s');
      ScanRows(s, n, evs, s');
      ScanRequests(s, evs, s'.external);
      ScanStored(s, evs, s');
      ScanPhase(s, evs, s');
    }
  }

  lemma {:induction false} AcceptedEvents(s: Sys, n: nat, evs: seq<ExternalWithdrawal>)
    requires ChainInv(s) && RowsInv(s) && SentInv(s) && Savable(s, n) && Reconciled(s, n, evs)
    requires ApplyExternal(s.external, evs).Ok?
    ensures AppliedTo(s.external, evs, ApplyExternal(s.external, evs).value)
    ensures forall e :: e in evs ==> OpenRow(s.external, EventKey(e))
  {
    hide ApplyExternal, AppliedTo, ChainInv, RowsInv, SentInv;
    EventsMeetRows(s, n, evs);
    AcceptedAreOpen(s.external, evs);
    ApplyDistinct(s.external, evs);
  }

  /** Saving a block makes it saved, changes that of no other, and takes the scanner no step back. */
  lemma MarkedIsSaved(s: Sys, n: nat)
    requires GapsInv(s) && Savable(s, n)
    ensures forall b: nat :: Saved(Marked(s, n), b) <==> Saved(s, b) || b == n
    ensures s.saved <= Marked(s, n).saved <= |s.blocks| && GapsInv(Marked(s, n))
  {}

  lemma MarkedKeepsChain(s: Sys, n: nat, s': Sys)
    requires ChainInv(s) && Savable(s, n) && s' == Marked(s, n).(external := s'.external)
    ensures ChainInv(s')
    ensures CheckInv(s) ==> CheckInv(s')
  {
    MarkedIsSaved(s, n);
    LaterBlock(s, s');
  }

  lemma LaterBlock(s: Sys, s': Sys)
    requires ChainInv(s) && s.saved <= s'.saved <= |s.blocks| && s'.blocks == s.blocks
    ensures 0 < s.saved ==> s.blocks[s.saved - 1] <= s'.blocks[s'.saved - 1]
  {
    if 0 < s.saved < s'.saved {
      assert s.blocks[s.saved - 1] + s.spacing * SECOND <= s.blocks[s'.saved - 1];
    }
  }

  lemma ScanRows(s: Sys, n: nat, evs: seq<ExternalWithdrawal>, s': Sys)
    requires ChainInv(s) && RowsInv(s) && Savable(s, n) && Reconciled(s, n, evs)
    requires AppliedTo(s.external, evs, s'.external) && s' == Marked(s, n).(external := s'.external)
    requires forall e :: e in evs ==> OpenRow(s.external, EventKey(e))
    ensures RowsInv(s')
  {
    hide ChainInv, RowInv, Reconciled, Marked;
    forall k | k in s'.external.rows ensures RowInv(s', k) { ScanRow(s, n, evs, s', k); }
  }

  lemma ScanRow(s: Sys, n: nat, evs: seq<ExternalWithdrawal>, s': Sys, k: ExtKey)
    requires ChainInv(s) && Savable(s, n) && Reconciled(s, n, evs)
    requires AppliedTo(s.external, evs, s'.external) && s' == Marked(s, n).(external := s'.external)
    requires forall e :: e in evs ==> OpenRow(s.external, EventKey(e))
    requires k in s.external.rows && RowInv(s, k)
    ensures RowInv(s', k)
  {
    hide Savable, SetProcessing;
    MarkedIsSaved(s, n);
    assert Saved(s', n) && forall b: nat :: Saved(s', b) <==> Saved(s, b) || b == n by {
      forall b: nat ensures Saved(s', b) == Saved(Marked(s, n), b) {}
    }
    LaterBlock(s, s');
    if e :| e in evs && EventKey(e) == k {
      EventRow(s, n, evs, s', k, e);
    } else {
      QuietRow(s, n, evs, s', k);
    }
  }

  lemma EventRow(s: Sys, n: nat, evs: seq<ExternalWithdrawal>, s': Sys, k: ExtKey, e: ExternalWithdrawal)
    requires Reconciled(s, n, evs) && e in evs && EventKey(e) == k && OpenRow(s.external, k) && RowInv(s, k)
    requires AppliedTo(s.external, evs, s'.external) && s'.executed == s.executed && s'.msgs == s.msgs
    requires Saved(s', n)
    ensures RowInv(s', k)
  {
    hide SetProcessing;
    assert s'.external.rows[k] == Updated(s.external.rows[k], e);
  }

  lemma QuietRow(s: Sys, n: nat, evs: seq<ExternalWithdrawal>, s': Sys, k: ExtKey)
    requires Reconciled(s, n, evs) && k in s.external.rows && RowInv(s, k)
    requires forall e :: e in evs ==> EventKey(e) != k
    requires AppliedTo(s.external, evs, s'.external) && s' == Marked(s, n).(external := s'.external)
    requires (forall b: nat :: Saved(s', b) <==> Saved(s, b) || b == n) && s.saved <= s'.saved <= |s.blocks|
    requires 0 < s.saved ==> s.blocks[s.saved - 1] <= s'.blocks[s'.saved - 1]
    ensures RowInv(s', k)
  {
    assert s'.external.rows[k] == s.external.rows[k];
    assert Seen(s', k.msg) == Seen(s, k.msg);
    assert Outstanding(s', k.msg) == Outstanding(s, k.msg);
    assert TooOld(s, s.msgs[k.msg].ttl) ==> TooOld(s', s.msgs[k.msg].ttl);
  }

  lemma ScanRequests(s: Sys, evs: seq<ExternalWithdrawal>, x': External)
    requires RequestsInv(s.external) && AppliedTo(s.external, evs, x')
    requires forall e :: e in evs ==> OpenRow(s.external, EventKey(e))
    ensures RequestsInv(x')
  {
    hide RequestInv, AppliedTo, OpenRow;
    assert x'.requests.Keys == s.external.requests.Keys by { SameKeys(s.external, evs, x'); }
    forall q | q in x'.requests ensures RequestInv(x', q) { ScanRequest(s.external, evs, x', q); }
  }

  lemma SameKeys(x: External, evs: seq<ExternalWithdrawal>, x': External)
    requires AppliedTo(x, evs, x')
    ensures x'.requests.Keys == x.requests.Keys && x'.rows.Keys == x.rows.Keys
  {}

  lemma ScanStored(s: Sys, evs: seq<ExternalWithdrawal>, s': Sys)
    requires SentInv(s) && AppliedTo(s.external, evs, s'.external) && s'.msgs == s.msgs && s'.sent == s.sent
    ensures SentInv(s')
  {
    hide AppliedTo;
    SameKeys(s.external, evs, s'.external);
    forall m | m in s'.sent ensures Stored(s', m) { assert Stored(s, m); }
  }

  lemma ScanRequest(x: External, evs: seq<ExternalWithdrawal>, x': External, q: int)
    requires AppliedTo(x, evs, x') && q in x'.requests && RequestInv(x, q)
    requires forall e :: e in evs ==> OpenRow(x, EventKey(e))
    ensures RequestInv(x', q)
  {
    forall k | k in x.rows
      ensures Holds(x', k, q) ==> Holds(x, k, q)
      ensures Holds(x, k, q) && !Touches(x, evs, q, true) ==> Holds(x', k, q)
      ensures x'.rows[k].queryId == x.rows[k].queryId
      ensures x.rows[k].processedLt.Some? ==> x'.rows[k].processedLt.Some?
      ensures x'.rows[k].queryId == q && x'.rows[k].processedLt.Some? && x.rows[k].processedLt.None? ==>
        Touches(x, evs, q, false)
    {
      if e :| e in evs && EventKey(e) == k { assert x'.rows[k] == Updated(x.rows[k], e); }
    }
    if Touches(x, evs, q, true) {
      var e :| e in evs && e.isFailed && EventKey(e) in x.rows && x.rows[EventKey(e)].queryId == q;
      assert Holds(x, EventKey(e), q);
      assert x'.rows[EventKey(e)] == Updated(x.rows[EventKey(e)], e);
    }
    if Touches(x, evs, q, false) {
      var e :| e in evs && !e.isFailed && EventKey(e) in x.rows && x.rows[EventKey(e)].queryId == q;
      assert x'.rows[EventKey(e)] == Updated(x.rows[EventKey(e)], e);
    }
  }

  lemma ScanPhase(s: Sys, evs: seq<ExternalWithdrawal>, s': Sys)
    requires PhaseInv(s) && AppliedTo(s.external, evs, s'.external)
    requires s'.phase == s.phase && s'.msgs == s.msgs && s'.sent == s.sent
    ensures PhaseInv(s')
  {
    hide PaysTasks, DistinctDests;
  }
}
