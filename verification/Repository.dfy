/** The repository as a mutable object: its calls change the tables statement by statement inside transactions,
  * and each is proved to do what the function of the same purpose in Ledger says. */
module Repository {
  import opened Base
  import opened Ledger
  import opened Uuids
  import opened BlockApplication

  /** A call that succeeded left exactly the expected tables; a rejected one reports why (its transaction is then rolled
    * back). */
  predicate Outcome(expected: Result<Tables, Rejection>, r: Option<Rejection>, now: Tables) {
    match expected
    case Ok(t) => r == None && now == t
    case Err(e) => r == Some(e)
  }

  class Repository {
    var requests: map<int, Request>
    var extRows: map<ExtKey, ExtRow>
    var internals: map<Uuid, IntRow>
    var extIncomes: multiset<ExternalIncome>
    var intIncomes: map<IncomeKey, InternalIncome>
    var blocks: map<BlockKey, Time>
    var service: map<Uuid, ServiceRow>

    function Contents(): Tables
      reads this
    {
      Tables(External(requests, extRows), internals, extIncomes, intIncomes, blocks)
    }

    constructor ()
      ensures Contents() == Tables(External(map[], map[]), map[], multiset{}, map[], map[]) && service == map[]
    {
      requests, extRows, internals, extIncomes, intIncomes, blocks, service := map[], map[], map[], multiset{}, map[],
        map[], map[];
    }

    /** Undo of everything since `t` was the contents. */
    method Rollback(t: Tables)
      modifies this
      ensures Contents() == t && service == old(service)
    {
      requests, extRows := t.external.requests, t.external.rows;
      internals, extIncomes, intIncomes, blocks := t.internals, t.extIncomes, t.intIncomes, t.blocks;
    }

    method SetRequestProcessing(queryId: int, flag: bool)
      modifies `requests
      ensures requests == SetProcessing(old(requests), {queryId}, flag)
    {
      if queryId in requests {
        requests := requests[queryId := requests[queryId].(processing := flag)];
      }
    }

    // ---- External withdrawals ----

    /** Row and request, task by task, in one transaction; a duplicate row undoes all. */
    method CreateExternalWithdrawals(tasks: seq<ExternalTask>, msg: MsgId,
                                     expiredAt: Time) returns (r: Option<Rejection>)
      modifies `requests, `extRows
      ensures match CreateExternal(old(Contents()).external, tasks, msg, expiredAt)
        case Ok(x) => r == None && Contents() == old(Contents()).(external := x)
        case Err(e) => r == Some(e) && Contents() == old(Contents())
    {
      hide SetProcessing;
      var requests0, rows0 := requests, extRows;
      CreatedNothing(External(requests0, rows0), msg, expiredAt);
      for i := 0 to |tasks|
        invariant FreshRows(External(requests0, rows0), tasks[..i], msg)
        invariant Created(External(requests0, rows0), tasks[..i], msg, expiredAt, External(requests, extRows))
      {
        var t := tasks[i];
        assert tasks[..i + 1] == tasks[..i] + [t];
        if ExtKey(msg, t.dest) in extRows {
          DuplicateRow(External(requests0, rows0), tasks, i, msg);
          requests, extRows := requests0, rows0;
          return Some(DuplicateKey);
        }
        CreatedStep(External(requests0, rows0), tasks[..i], t, msg, expiredAt, External(requests, extRows));
        extRows := extRows[ExtKey(msg, t.dest) := ExtRow(t.queryId, expiredAt, None, false, false)];
        SetRequestProcessing(t.queryId, true);
      }
      assert tasks[..|tasks|] == tasks;
      r := None;
    }

    method UpdateExternalWithdrawal(w: ExternalWithdrawal) returns (r: Option<Rejection>)
      modifies `requests, `extRows
      ensures Outcome(ApplyChange(old(Contents()), Extern(w)), r, Contents())
    {
      var k := ExtKey(w.msg, w.to);
      var alreadyFailed := k in extRows && extRows[k].failed;
      if alreadyFailed { return Some(ExpirationMisfire); }
      if k !in extRows { return Some(MissingRow); }
      var queryId := extRows[k].queryId;
      if w.isFailed {
        extRows := extRows[k := extRows[k].(failed := true)];
        SetRequestProcessing(queryId, false);
        return None;
      }
      extRows := extRows[k := extRows[k].(processedLt := Some(w.lt))];
      if queryId in requests { requests := requests[queryId := requests[queryId].(processed := true)]; }
      ProcessedOne(old(requests), queryId, requests);
      r := None;
    }

    method ApplyJettonWithdrawalConfirmation(c: WithdrawalConfirmation)
      modifies `extRows
      ensures Contents() == old(Contents()).(external := ConfirmExternal(old(Contents()).external, c.queryId))
    {
      extRows := map k | k in extRows ::
        if extRows[k].queryId == c.queryId
          && extRows[k].processedLt.Some? then extRows[k].(confirmed := true) else extRows[k];
    }

    // ---- Internal withdrawals and incomes ----

    method SaveInternalWithdrawalTask(t: InternalTask, expiredAt: Time, memo: Uuid) returns (r: Option<Rejection>)
      modifies `internals
      ensures match SaveTask(old(internals), t, expiredAt, memo)
        case Ok(rows) => r == None && internals == rows
        case Err(e) => r == Some(e) && internals == old(internals)
    {
      if memo in internals { return Some(DuplicateKey); }
      internals := internals[memo := IntRow(t.deposit, t.lt, expiredAt, None, None, 0, false)];
      r := None;
    }

    /** The row is updated first; a failed one is rejected afterwards. */
    method ApplySendingConfirmations(c: SendingConfirmation) returns (r: Option<Rejection>)
      modifies `internals
      ensures Outcome(ApplyChange(old(Contents()), Sending(c)), r, Contents())
    {
      hide ParseUuid;
      var memo := ParseUuid(c.memo);
      if memo.None? { return Some(BadMemo); }
      var m := memo.value;
      if m !in internals { return Some(MissingRow); }
      internals := internals[m := internals[m].(sendingLt := Some(c.lt))];
      if internals[m].failed { return Some(ExpirationMisfire); }
      r := None;
    }

    method UpdateInternalWithdrawal(w: InternalWithdrawal) returns (r: Option<Rejection>)
      modifies `internals
      ensures Outcome(ApplyChange(old(Contents()), Internal(w)), r, Contents())
    {
      hide ParseUuid;
      var memo := ParseUuid(w.memo);
      if memo.None? { return Some(BadMemo); }
      var m := memo.value;
      var alreadyFailed, sendingLt := false, None;
      if m in internals { alreadyFailed, sendingLt := internals[m].failed, internals[m].sendingLt; }
      if alreadyFailed { return Some(ExpirationMisfire); }
      if sendingLt == None { return Some(EventOrder); }
      if w.isFailed {
        internals := internals[m := internals[m].(failed := true)];
        return None;
      }
      internals :=
        internals[m := internals[m].(finishLt := Some(w.lt), amount := internals[m].amount + w.amount)];
      r := None;
    }

    method SaveExternalIncome(i: ExternalIncome)
      modifies `extIncomes
      ensures Contents() == old(Contents()).(extIncomes := old(extIncomes) + multiset{i})
    {
      extIncomes := extIncomes + multiset{i};
    }

    method SaveInternalIncome(i: InternalIncome) returns (r: Option<Rejection>)
      modifies `intIncomes
      ensures Outcome(ApplyChange(old(Contents()), AddIntIncome(i)), r, Contents())
    {
      hide ParseUuid;
      var memo := ParseUuid(i.memo);
      if memo.None? { return Some(BadMemo); }
      if IncomeKey(memo.value, i.lt) in intIncomes { return Some(DuplicateKey); }
      intIncomes := intIncomes[IncomeKey(memo.value, i.lt) := i];
      r := None;
    }

    // ---- Blocks ----

    method SaveBlock(b: BlockEvents) returns (r: Option<Rejection>)
      modifies `blocks
      ensures r == if b.key in old(blocks) then Some(DuplicateKey) else None
      ensures r.None? ==> blocks == old(blocks)[b.key := b.genUtime]
    {
      if b.key in blocks { return Some(DuplicateKey); }
      blocks := blocks[b.key := b.genUtime];
      r := None;
    }

    /** The block with the greatest number. */
    method GetLastSavedBlock() returns (r: Option<BlockKey>)
      ensures r.None? <==> blocks == map[]
      ensures r.Some? ==> r.value in blocks && forall k :: k in blocks ==> k.seqno <= r.value.seqno
    {
      r := None;
      var todo := blocks.Keys;
      while todo != {}
        invariant todo <= blocks.Keys
        invariant r.None? ==> todo == blocks.Keys
        invariant r.Some? ==> r.value in blocks && forall k :: k in blocks && k !in todo ==> k.seqno <= r.value.seqno
      {
        var k :| k in todo;
        if r.None? || r.value.seqno < k.seqno { r := Some(k); }
        todo := todo - {k};
      }
    }

    /** One change inside the block's transaction. */
    method Apply(c: Change) returns (r: Option<Rejection>)
      modifies this
      ensures Outcome(ApplyChange(old(Contents()), c), r, Contents()) && service == old(service)
    {
      r := None;
      match c
      case AddExtIncome(e) => SaveExternalIncome(e);
      case AddIntIncome(e) => r := SaveInternalIncome(e);
      case Sending(e) => r := ApplySendingConfirmations(e);
      case Internal(e) => r := UpdateInternalWithdrawal(e);
      case Extern(e) => r := UpdateExternalWithdrawal(e);
      case Confirmation(e) => ApplyJettonWithdrawalConfirmation(e);
    }

    /** A loop over one kind of events. */
    method ApplyAll(cs: seq<Change>) returns (r: Option<Rejection>)
      modifies this
      ensures Outcome(ApplyChanges(old(Contents()), cs), r, Contents()) && service == old(service)
    {
      hide ApplyChange;
      ghost var t := Contents();
      for i := 0 to |cs|
        invariant ApplyChanges(t, cs[..i]) == Ok(Contents()) && service == old(service)
      {
        assert cs[..i + 1] == cs[..i] + [cs[i]];
        ApplyLast(t, cs[..i], cs[i]);
        ghost var u := Contents();
        r := Apply(cs[i]);
        if r.Some? {
          RejectedForGood(t, cs, i + 1);
          return;
        }
      }
      assert cs[..|cs|] == cs;
      r := None;
    }

    /** Every event of a block, kind by kind, and the block's own row, in one transaction that is undone on any
      * rejection. */
    method SaveParsedBlockData(b: BlockEvents) returns (r: Option<Rejection>)
      modifies this
      ensures service == old(service)
      ensures match ApplyBlock(old(Contents()), b)
        case Ok(t) => r == None && Contents() == t
        case Err(e) => r == Some(e) && Contents() == old(Contents())
    {
      hide ApplyChanges, ExtIncomeChanges, IntIncomeChanges, SendingChanges, InternalChanges, ExternalChanges,
           ConfirmationChanges;
      var before := Contents();
      r := SaveEvents(b.events);
      if r.None? { r := SaveBlock(b); }
      if r.Some? { Rollback(before); }
    }

    method SaveEvents(e: Events) returns (r: Option<Rejection>)
      modifies this
      ensures Outcome(ApplyChanges(old(Contents()), ChangesOf(e)), r, Contents()) && service == old(service)
    {
      hide ApplyChanges, ExtIncomeChanges, IntIncomeChanges, SendingChanges, InternalChanges, ExternalChanges,
           ConfirmationChanges;
      ghost var t := Contents();
      ghost var c1, c2, c3 := ExtIncomeChanges(e.extIncomes), IntIncomeChanges(e.intIncomes),
        SendingChanges(e.sendings);
      ghost var c4, c5, c6 := InternalChanges(e.intWithdrawals), ExternalChanges(e.extWithdrawals),
        ConfirmationChanges(e.confirmations);
      ApplyConcat(t, c1, c2);
      ApplyConcat(t, c1 + c2, c3);
      ApplyConcat(t, c1 + c2 + c3, c4);
      ApplyConcat(t, c1 + c2 + c3 + c4, c5);
      ApplyConcat(t, c1 + c2 + c3 + c4 + c5, c6);
      r := ApplyAll(ExtIncomeChanges(e.extIncomes));
      if r.None? { r := ApplyAll(IntIncomeChanges(e.intIncomes)); }
      if r.None? { r := ApplyAll(SendingChanges(e.sendings)); }
      if r.None? { r := ApplyAll(InternalChanges(e.intWithdrawals)); }
      if r.None? { r := ApplyAll(ExternalChanges(e.extWithdrawals)); }
      if r.None? { r := ApplyAll(ConfirmationChanges(e.confirmations)); }
    }

    // ---- Expiry ----

    /** One statement for the internal rows; then a transaction that fails the stale external rows and re-opens,
      * one by one, the requests it got back. The clock is read for each. */
    method SetExpired(internalCutoff: Time, externalCutoff: Time)
      modifies `internals, `requests, `extRows
      ensures Contents() == old(Contents()).(internals := ExpireInternal(old(internals), internalCutoff),
                                             external := ExpireExternal(old(Contents()).external, externalCutoff))
    {
      hide SetProcessing, Queries, StaleQueries;
      internals := map m | m in internals ::
        if StaleInternal(internals[m], internalCutoff) then internals[m].(failed := true) else internals[m];
      var stale := set k | k in extRows && StaleExternal(extRows[k], externalCutoff);
      ghost var x, done := External(requests, extRows), {};
      var rows0, todo := extRows, stale;
      extRows := map k | k in extRows :: if StaleExternal(extRows[k], externalCutoff) then extRows[k].(failed := true)
        else extRows[k];
      ReopenNone(x);
      while todo != {}
        invariant done + todo == stale && extRows == ExpireExternal(x, externalCutoff).rows
        invariant internals == ExpireInternal(old(internals), internalCutoff)
        invariant requests == SetProcessing(x.requests, Queries(x.rows, done), false)
        decreases todo
      {
        var k :| k in todo;
        ReopenOne(x, done, k, requests);
        SetRequestProcessing(rows0[k].queryId, false);
        todo := todo - {k};
        done := done + {k};
      }
      ReopenedAll(x, done, externalCutoff);
    }

    method UpdateServiceWithdrawalRequest(t: ServiceTask, tonAmount: nat, expiredAt: Time, filled: bool)
      modifies `service
      ensures service == UpdateService(old(service), t, tonAmount, expiredAt, filled)
      ensures service.Keys == old(service).Keys
      ensures forall m :: m in service ==>
        service[m] ==
          if m == t.memo then ServiceRow(old(service)[m].payer, old(service)[m].master, tonAmount, t.jettonAmount,
                                         expiredAt, filled, !filled)
          else old(service)[m]
    {
      if t.memo in service {
        service := service[t.memo := service[t.memo].(tonAmount := tonAmount, jettonAmount := t.jettonAmount,
                                                      processed := !filled, expiredAt := expiredAt, filled := filled)];
      }
    }
  }

  // ---- Steps of the loops ----

  ghost predicate Created(x: External, tasks: seq<ExternalTask>, msg: MsgId, expiredAt: Time, now: External) {
    FreshRows(x, tasks, msg) ==> CreateExternal(x, tasks, msg, expiredAt) == Ok(now)
  }

  lemma CreatedNothing(x: External, msg: MsgId, expiredAt: Time)
    ensures FreshRows(x, [], msg) && Created(x, [], msg, expiredAt, x)
  {
    var y := CreateExternal(x, [], msg, expiredAt).value;
    assert y.requests == x.requests;
    assert y.rows == x.rows;
  }

  lemma CreatedStep(x: External, tasks: seq<ExternalTask>, t: ExternalTask, msg: MsgId, expiredAt: Time, now: External)
    requires FreshRows(x, tasks, msg) && Created(x, tasks, msg, expiredAt, now) && ExtKey(msg, t.dest) !in now.rows
    ensures FreshRows(x, tasks + [t], msg)
    ensures Created(x, tasks + [t], msg, expiredAt,
      External(SetProcessing(now.requests, {t.queryId}, true),
        now.rows[ExtKey(msg, t.dest) := ExtRow(t.queryId, expiredAt, None, false, false)]))
  {
    hide SetProcessing, TaskQueries, NewRows;
    forall u | u in tasks ensures ExtKey(msg, u.dest) in now.rows { NewRow(tasks, u, msg, expiredAt); }
    FreshStep(x, tasks, t, msg);
    NewRowsStep(tasks, t, msg, expiredAt);
    var k, row := ExtKey(msg, t.dest), ExtRow(t.queryId, expiredAt, None, false, false);
    assert x.rows + NewRows(tasks, msg, expiredAt)[k := row] == now.rows[k := row];
    ProcessingStep(x.requests, tasks, t);
  }

  lemma NewRow(tasks: seq<ExternalTask>, t: ExternalTask, msg: MsgId, expiredAt: Time)
    requires DistinctDests(tasks) && t in tasks
    ensures ExtKey(msg, t.dest) in NewRows(tasks, msg, expiredAt)
  {}

  lemma NewRowsStep(tasks: seq<ExternalTask>, t: ExternalTask, msg: MsgId, expiredAt: Time)
    requires DistinctDests(tasks + [t]) && DistinctDests(tasks)
    ensures NewRows(tasks + [t], msg, expiredAt) ==
      NewRows(tasks, msg, expiredAt)[ExtKey(msg, t.dest) := ExtRow(t.queryId, expiredAt, None, false, false)]
  {
    var a, b := NewRows(tasks + [t], msg, expiredAt), NewRows(tasks, msg, expiredAt);
    assert t in tasks + [t];
    forall k ensures k in a <==> k in b || k == ExtKey(msg, t.dest) {
      if k in b {
        var u :| u in tasks && k == ExtKey(msg, u.dest);
        assert u in tasks + [t];
      }
    }
    forall k | k in b ensures a[k] == b[k] && k != ExtKey(msg, t.dest) {
      var u :| u in tasks && k == ExtKey(msg, u.dest);
      OtherDest(tasks, t, u);
      assert u in tasks + [t];
    }
  }

  lemma OtherDest(tasks: seq<ExternalTask>, t: ExternalTask, u: ExternalTask)
    requires DistinctDests(tasks + [t]) && u in tasks
    ensures u.dest != t.dest
  {
    var all := tasks + [t];
    var i :| 0 <= i < |tasks| && tasks[i] == u;
    assert all[i].dest != all[|tasks|].dest;
  }

  lemma FreshStep(x: External, tasks: seq<ExternalTask>, t: ExternalTask, msg: MsgId)
    requires FreshRows(x, tasks, msg) && ExtKey(msg, t.dest) !in x.rows && forall u :: u in tasks ==> u.dest != t.dest
    ensures FreshRows(x, tasks + [t], msg)
  {
    var all := tasks + [t];
    forall i, j | 0 <= i < j < |all| ensures all[i].dest != all[j].dest {
      if j == |tasks| { assert all[i] in tasks; }
    }
  }

  lemma ProcessingStep(requests: map<int, Request>, tasks: seq<ExternalTask>, t: ExternalTask)
    ensures SetProcessing(requests, TaskQueries(tasks + [t]), true)
         == SetProcessing(SetProcessing(requests, TaskQueries(tasks), true), {t.queryId}, true)
  {
    assert TaskQueries(tasks + [t]) == TaskQueries(tasks) + {t.queryId};
  }

  lemma DuplicateRow(x: External, tasks: seq<ExternalTask>, i: nat, msg: MsgId)
    requires i < |tasks| && FreshRows(x, tasks[..i], msg)
    requires ExtKey(msg, tasks[i].dest) in x.rows || exists t :: t in tasks[..i] && t.dest == tasks[i].dest
    ensures !FreshRows(x, tasks, msg)
  {
    assert tasks[i] in tasks;
    if t :| t in tasks[..i] && t.dest == tasks[i].dest {
      var j :| 0 <= j < i && tasks[j] == t;
    }
  }

  lemma ProcessedOne(requests: map<int, Request>, q: int, after: map<int, Request>)
    requires after == if q in requests then requests[q := requests[q].(processed := true)] else requests
    ensures after == SetProcessed(requests, {q})
  {}

  lemma {:induction false} RejectedForGood(t: Tables, cs: seq<Change>, i: nat)
    requires i <= |cs| && ApplyChanges(t, cs[..i]).Err?
    ensures ApplyChanges(t, cs) == ApplyChanges(t, cs[..i])
  {
    hide ApplyChange;
    ApplyConcat(t, cs[..i], cs[i..]);
    assert cs == cs[..i] + cs[i..];
  }

  function Queries(rows: map<ExtKey, ExtRow>, ks: set<ExtKey>): set<int> {
    set k | k in ks && k in rows :: rows[k].queryId
  }

  lemma ReopenNone(x: External)
    ensures x.requests == SetProcessing(x.requests, Queries(x.rows, {}), false)
  {}

  lemma ReopenedAll(x: External, done: set<ExtKey>, cutoff: Time)
    requires done == set k | k in x.rows && StaleExternal(x.rows[k], cutoff)
    ensures Queries(x.rows, done) == StaleQueries(x, cutoff)
  {}

  lemma ReopenOne(x: External, done: set<ExtKey>, k: ExtKey, requests: map<int, Request>)
    requires k in x.rows && requests == SetProcessing(x.requests, Queries(x.rows, done), false)
    ensures SetProcessing(requests, {x.rows[k].queryId}, false) ==
      SetProcessing(x.requests, Queries(x.rows, done + {k}), false)
  {
    assert Queries(x.rows, done + {k}) == Queries(x.rows, done) + {x.rows[k].queryId};
  }
}
