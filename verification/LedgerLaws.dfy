/** Laws of the tables that hold for any events, in any order: rows only move forward, a failed row is never touched
  * again, and confirmations by excess messages are invisible to everything else. */
module LedgerLaws {
  import opened Base
  import opened BlockApplication
  import opened Ledger
  import opened Uuids

  // ---- Moving forward ----

  /** A row keeps its origin and never loses what it reached; once failed it does not change at all. */
  predicate IntRowAdvances(r: IntRow, r': IntRow) {
    && r'.deposit == r.deposit && r'.sinceLt == r.sinceLt && r'.expiredAt == r.expiredAt
    && (r.sendingLt.Some? ==> r'.sendingLt.Some?) && (r.finishLt.Some? ==> r'.finishLt.Some?)
    && (r.failed ==> r' == r)
  }

  /** The same, but an excess may still confirm a row, and only a processed one. */
  predicate ExtRowAdvances(r: ExtRow, r': ExtRow) {
    && r'.queryId == r.queryId && r'.expiredAt == r.expiredAt
    && (r.processedLt.Some? ==> r'.processedLt.Some?) && (r.confirmed ==> r'.confirmed)
    && (r'.confirmed && !r.confirmed ==> r'.processedLt.Some?)
    && (r.failed ==> r' == r.(confirmed := r'.confirmed))
  }

  predicate RequestAdvances(q: Request, q': Request) {
    q'.(processing := q.processing, processed := q.processed) == q && (q.processed ==> q'.processed)
  }

  ghost predicate ExternalAdvances(x: External, y: External) {
    && x.rows.Keys <= y.rows.Keys && (forall k :: k in x.rows ==> ExtRowAdvances(x.rows[k], y.rows[k]))
    && y.requests.Keys == x.requests.Keys && forall q :: q in x.requests ==>
         RequestAdvances(x.requests[q], y.requests[q])
  }

  ghost predicate Advances(t: Tables, u: Tables) {
    && t.internals.Keys <= u.internals.Keys
         && (forall m :: m in t.internals ==> IntRowAdvances(t.internals[m], u.internals[m]))
    && ExternalAdvances(t.external, u.external)
    && (forall k :: k in t.intIncomes ==> k in u.intIncomes && u.intIncomes[k] == t.intIncomes[k])
    && t.extIncomes <= u.extIncomes
    && forall b :: b in t.blocks ==> b in u.blocks && u.blocks[b] == t.blocks[b]
  }

  lemma AdvancesTwice(t: Tables, u: Tables, v: Tables)
    requires Advances(t, u) && Advances(u, v)
    ensures Advances(t, v)
  {
    forall m | m in t.internals ensures IntRowAdvances(t.internals[m], v.internals[m]) {
      assert IntRowAdvances(t.internals[m], u.internals[m]) && IntRowAdvances(u.internals[m], v.internals[m]);
    }
    forall k | k in t.external.rows ensures ExtRowAdvances(t.external.rows[k], v.external.rows[k]) {
      assert ExtRowAdvances(t.external.rows[k], u.external.rows[k])
        && ExtRowAdvances(u.external.rows[k], v.external.rows[k]);
    }
    forall q | q in t.external.requests ensures RequestAdvances(t.external.requests[q], v.external.requests[q]) {
      assert RequestAdvances(t.external.requests[q], u.external.requests[q]);
      assert RequestAdvances(u.external.requests[q], v.external.requests[q]);
    }
  }

  lemma ChangeAdvances(t: Tables, c: Change)
    requires ApplyChange(t, c).Ok?
    ensures Advances(t, ApplyChange(t, c).value)
  {
    hide ParseUuid, UpdateExternal, ConfirmExternal, ExternalAdvances;
    SameExternal(t.external);
    match c
    case Extern(e) => UpdateAdvances(t.external, e);
    case Confirmation(e) => ConfirmAdvances(t.external, e.queryId);
    case _ =>
  }

  lemma SameExternal(x: External)
    ensures ExternalAdvances(x, x)
  {}

  lemma UpdateAdvances(x: External, e: ExternalWithdrawal)
    requires UpdateExternal(x, e).Ok?
    ensures ExternalAdvances(x, UpdateExternal(x, e).value)
  {}

  lemma ConfirmAdvances(x: External, queryId: int)
    ensures ExternalAdvances(x, ConfirmExternal(x, queryId))
  {}

  /** Whatever changes are accepted, the tables only move forward. */
  lemma {:induction false} ChangesAdvance(t: Tables, cs: seq<Change>)
    requires ApplyChanges(t, cs).Ok?
    ensures Advances(t, ApplyChanges(t, cs).value)
    decreases |cs|
  {
    hide Advances, ApplyChange;
    if cs == [] {
      SameAdvances(t);
    } else {
      var n := |cs| - 1;
      ChangesAdvance(t, cs[..n]);
      var u := ApplyChanges(t, cs[..n]).value;
      ChangeAdvances(u, cs[n]);
      AdvancesTwice(t, u, ApplyChange(u, cs[n]).value);
    }
  }

  lemma SameAdvances(t: Tables)
    ensures Advances(t, t)
  {}

  lemma CreatingAdvances(t: Tables, tasks: seq<ExternalTask>, msg: MsgId, expiredAt: Time)
    ensures var x := CreateExternal(t.external, tasks, msg, expiredAt); x.Ok? ==> Advances(t, t.(external := x.value))
  {
    hide CreateExternal, ExternalAdvances;
    if CreateExternal(t.external, tasks, msg, expiredAt).Ok? { CreateAdvances(t.external, tasks, msg, expiredAt); }
  }

  lemma SavingAdvances(t: Tables, task: InternalTask, memo: Uuid, expiredAt: Time)
    ensures var r := SaveTask(t.internals, task, expiredAt, memo); r.Ok? ==> Advances(t, t.(internals := r.value))
  {
    hide ExternalAdvances;
    SameExternal(t.external);
  }

  lemma ExpiringAdvances(t: Tables, cutoff: Time)
    ensures Advances(t, t.(external := ExpireExternal(t.external, cutoff),
      internals := ExpireInternal(t.internals, cutoff)))
  {
    hide ExpireExternal, ExternalAdvances;
    ExpireAdvances(t.external, cutoff);
  }

  lemma CreateAdvances(x: External, tasks: seq<ExternalTask>, msg: MsgId, expiredAt: Time)
    requires CreateExternal(x, tasks, msg, expiredAt).Ok?
    ensures ExternalAdvances(x, CreateExternal(x, tasks, msg, expiredAt).value)
  {
    var y := CreateExternal(x, tasks, msg, expiredAt).value;
    forall k | k in x.rows ensures ExtRowAdvances(x.rows[k], y.rows[k]) { assert k !in NewRows(tasks, msg, expiredAt); }
  }

  lemma ExpireAdvances(x: External, cutoff: Time)
    ensures ExternalAdvances(x, ExpireExternal(x, cutoff))
  {}

  lemma BlockAdvances(t: Tables, b: BlockEvents)
    ensures Advances(t, Attempt(t, b))
  {
    hide ApplyChanges, IntRowAdvances, ExtRowAdvances, RequestAdvances;
    var r := ApplyChanges(t, ChangesOf(b.events));
    if r.Ok? {
      ChangesAdvance(t, ChangesOf(b.events));
      ChangesKeepBlocks(t, ChangesOf(b.events));
    } else {
      SameAdvances(t);
    }
    SameAdvances(t);
  }

  /** A call of the repository that changes the tables; a rejected one leaves them as they are. */
  datatype Call =
    | Apply(block: BlockEvents)
    | Create(tasks: seq<ExternalTask>, msg: MsgId, extExpiredAt: Time)
    | Save(task: InternalTask, memo: Uuid, expiredAt: Time)
    | SetExpired(cutoff: Time)

  function After(t: Tables, c: Call): Tables {
    match c
    case Apply(b) => Attempt(t, b)
    case Create(tasks, msg, at) =>
      (match CreateExternal(t.external, tasks, msg, at) case Ok(x) => t.(external := x) case Err(_) => t)
    case Save(task, memo, at) =>
      (match SaveTask(t.internals, task, at, memo) case Ok(rows) => t.(internals := rows) case Err(_) => t)
    case SetExpired(cutoff) =>
      t.(external := ExpireExternal(t.external, cutoff), internals := ExpireInternal(t.internals, cutoff))
  }

  function Replay(t: Tables, calls: seq<Call>): Tables
    decreases |calls|
  {
    if calls == [] then t else After(Replay(t, calls[..|calls| - 1]), calls[|calls| - 1])
  }

  lemma CallAdvances(t: Tables, c: Call)
    ensures Advances(t, After(t, c))
  {
    hide Advances, Attempt, CreateExternal, SaveTask, ExpireExternal, ExpireInternal;
    SameAdvances(t);
    match c
    case Apply(b) => BlockAdvances(t, b);
    case Create(tasks, msg, at) => CreatingAdvances(t, tasks, msg, at);
    case Save(task, memo, at) => SavingAdvances(t, task, memo, at);
    case SetExpired(cutoff) => ExpiringAdvances(t, cutoff);
  }

  /** Over any history of calls, accepted or rejected, the tables only move forward. */
  lemma {:induction false} HistoryAdvances(t: Tables, calls: seq<Call>)
    ensures Advances(t, Replay(t, calls))
    decreases |calls|
  {
    hide Advances, After;
    if calls == [] {
      SameAdvances(t);
    } else {
      var n := |calls| - 1;
      HistoryAdvances(t, calls[..n]);
      CallAdvances(Replay(t, calls[..n]), calls[n]);
      AdvancesTwice(t, Replay(t, calls[..n]), Replay(t, calls));
    }
  }

  // ---- Confirmations ----

  /** An excess confirms exactly the processed rows of its query. */
  lemma ConfirmExact(x: External, queryId: int)
    ensures var y := ConfirmExternal(x, queryId);
      && SameButConfirmed(x, y)
      && forall k :: k in x.rows ==>
           (y.rows[k].confirmed <==>
              x.rows[k].confirmed || (x.rows[k].queryId == queryId && x.rows[k].processedLt.Some?))
  {}

  predicate Alike(r: ExtRow, r': ExtRow) { r' == r.(confirmed := r'.confirmed) }

  /** The same but for what is confirmed. */
  ghost predicate SameButConfirmed(x: External, y: External) {
    && x.requests == y.requests && x.rows.Keys == y.rows.Keys && forall k :: k in x.rows ==> Alike(x.rows[k], y.rows[k])
  }

  ghost predicate Confirmations(t: Tables, u: Tables) {
    u == t.(external := u.external) && SameButConfirmed(t.external, u.external)
  }

  /** No statement that updates rows or requests reads what is confirmed. */
  lemma UpdateIsBlind(x: External, y: External, e: ExternalWithdrawal)
    requires SameButConfirmed(x, y)
    ensures var a, b := UpdateExternal(x, e), UpdateExternal(y, e);
      if a.Ok? then b.Ok? && SameButConfirmed(a.value, b.value) else b == Err(a.error)
  {
    var k := ExtKey(e.msg, e.to);
    if k in x.rows { assert Alike(x.rows[k], y.rows[k]); }
  }

  lemma ExpireIsBlind(x: External, y: External, cutoff: Time)
    requires SameButConfirmed(x, y)
    ensures SameButConfirmed(ExpireExternal(x, cutoff), ExpireExternal(y, cutoff))
  {
    forall k | k in x.rows ensures StaleExternal(x.rows[k], cutoff) <==> StaleExternal(y.rows[k], cutoff) {
      assert Alike(x.rows[k], y.rows[k]);
    }
    assert StaleQueries(x, cutoff) == StaleQueries(y, cutoff);
    var a, b := ExpireExternal(x, cutoff), ExpireExternal(y, cutoff);
    forall k | k in a.rows ensures Alike(a.rows[k], b.rows[k]) { assert Alike(x.rows[k], y.rows[k]); }
  }

  lemma CreateIsBlind(x: External, y: External, tasks: seq<ExternalTask>, msg: MsgId, expiredAt: Time)
    requires SameButConfirmed(x, y)
    ensures var a, b := CreateExternal(x, tasks, msg, expiredAt), CreateExternal(y, tasks, msg, expiredAt);
      if a.Ok? then b.Ok? && SameButConfirmed(a.value, b.value) else b == Err(a.error)
  {
    hide SetProcessing, NewRows;
    assert FreshRows(x, tasks, msg) <==> FreshRows(y, tasks, msg);
    if FreshRows(x, tasks, msg) {
      var a, b := CreateExternal(x, tasks, msg, expiredAt).value, CreateExternal(y, tasks, msg, expiredAt).value;
      forall k | k in a.rows ensures k in b.rows && Alike(a.rows[k], b.rows[k]) {
        if k in x.rows { assert Alike(x.rows[k], y.rows[k]); }
      }
    }
  }

  lemma ChangeIsBlind(t: Tables, u: Tables, c: Change)
    requires Confirmations(t, u) && !c.Confirmation?
    ensures var a, b := ApplyChange(t, c), ApplyChange(u, c);
      if a.Ok? then b.Ok? && Confirmations(a.value, b.value) else b == Err(a.error)
  {
    hide UpdateExternal, SaveIntIncome, ApplySending, UpdateInternal, SameButConfirmed;
    if c.Extern? { UpdateIsBlind(t.external, u.external, c.ew); }
  }

  lemma ConfirmedAlike(t: Tables, u: Tables, queryId: int)
    requires Confirmations(t, u)
    ensures Confirmations(t, u.(external := ConfirmExternal(u.external, queryId)))
  {
    forall k | k in u.external.rows ensures Alike(t.external.rows[k], ConfirmExternal(u.external, queryId).rows[k]) {
      assert Alike(t.external.rows[k], u.external.rows[k]);
    }
  }

  /** The changes without the confirmations. */
  function Unconfirmed(cs: seq<Change>): seq<Change> {
    if cs == [] then []
    else Unconfirmed(cs[..|cs| - 1]) + if cs[|cs| - 1].Confirmation? then [] else [cs[|cs| - 1]]
  }

  /** Confirmations wherever among the changes of a block change neither what is accepted nor anything but
    * themselves. */
  lemma {:induction false} ConfirmationsInvisible(t: Tables, cs: seq<Change>)
    ensures var a, b := ApplyChanges(t, Unconfirmed(cs)), ApplyChanges(t, cs);
      if a.Ok? then b.Ok? && Confirmations(a.value, b.value) else b == Err(a.error)
    decreases |cs|
  {
    hide ApplyChange, Confirmations;
    if cs == [] {
      NoneConfirmed(t);
    } else {
      var n := |cs| - 1;
      ConfirmationsInvisible(t, cs[..n]);
      var a, b := ApplyChanges(t, Unconfirmed(cs[..n])), ApplyChanges(t, cs[..n]);
      if cs[n].Confirmation? {
        assert Unconfirmed(cs) == Unconfirmed(cs[..n]);
        if a.Ok? { ConfirmedStep(a.value, b.value, cs[n]); }
      } else {
        ApplyLast(t, Unconfirmed(cs[..n]), cs[n]);
        if a.Ok? { ChangeIsBlind(a.value, b.value, cs[n]); }
      }
    }
  }

  lemma NoneConfirmed(t: Tables)
    ensures Confirmations(t, t)
  {}

  lemma ConfirmedStep(a: Tables, b: Tables, c: Change)
    requires Confirmations(a, b) && c.Confirmation?
    ensures ApplyChange(b, c).Ok? && Confirmations(a, ApplyChange(b, c).value)
  {
    hide Confirmations, ConfirmExternal;
    ConfirmedAlike(a, b, c.wc.queryId);
  }

  /** A confirmation on both sides. */
  lemma BothConfirmed(t: Tables, u: Tables, queryId: int)
    requires Confirmations(t, u)
    ensures Confirmations(t.(external := ConfirmExternal(t.external, queryId)),
                          u.(external := ConfirmExternal(u.external, queryId)))
  {
    forall k | k in t.external.rows
      ensures Alike(ConfirmExternal(t.external, queryId).rows[k], ConfirmExternal(u.external, queryId).rows[k]) {
      assert Alike(t.external.rows[k], u.external.rows[k]);
    }
  }

  lemma {:induction false} ChangesAreBlind(t: Tables, u: Tables, cs: seq<Change>)
    requires Confirmations(t, u)
    ensures var a, b := ApplyChanges(t, cs), ApplyChanges(u, cs);
      if a.Ok? then b.Ok? && Confirmations(a.value, b.value) else b == Err(a.error)
    decreases |cs|
  {
    hide ApplyChange, Confirmations;
    if cs != [] {
      var n := |cs| - 1;
      ChangesAreBlind(t, u, cs[..n]);
      var a, b := ApplyChanges(t, cs[..n]), ApplyChanges(u, cs[..n]);
      if a.Ok? { AnyChangeIsBlind(a.value, b.value, cs[n]); }
    }
  }

  lemma AnyChangeIsBlind(t: Tables, u: Tables, c: Change)
    requires Confirmations(t, u)
    ensures var a, b := ApplyChange(t, c), ApplyChange(u, c);
      if a.Ok? then b.Ok? && Confirmations(a.value, b.value) else b == Err(a.error)
  {
    hide Confirmations, UpdateExternal, SaveIntIncome, ApplySending, UpdateInternal, ConfirmExternal;
    if c.Confirmation? { BothConfirmed(t, u, c.wc.queryId); } else { ChangeIsBlind(t, u, c); }
  }

  /** No call of the repository reads what is confirmed: tables that differ in that column only are accepted and changed
    * alike. */
  lemma CallIsBlind(t: Tables, u: Tables, c: Call)
    requires Confirmations(t, u)
    ensures Confirmations(After(t, c), After(u, c))
  {
    hide ApplyChanges, CreateExternal, ExpireExternal, ExpireInternal, SaveTask, SameButConfirmed;
    match c
    case Apply(b) =>
      ChangesAreBlind(t, u, ChangesOf(b.events));
      ChangesKeepBlocks(t, ChangesOf(b.events));
      ChangesKeepBlocks(u, ChangesOf(b.events));
    case Create(tasks, msg, at) => CreateIsBlind(t.external, u.external, tasks, msg, at);
    case Save(_, _, _) =>
    case SetExpired(cutoff) => ExpireIsBlind(t.external, u.external, cutoff);
  }

  /** So it is over any history: what excesses confirm never shows in anything else. */
  lemma {:induction false} HistoryIsBlind(t: Tables, u: Tables, calls: seq<Call>)
    requires Confirmations(t, u)
    ensures Confirmations(Replay(t, calls), Replay(u, calls))
    decreases |calls|
  {
    hide Confirmations, After;
    if calls != [] {
      var n := |calls| - 1;
      HistoryIsBlind(t, u, calls[..n]);
      CallIsBlind(Replay(t, calls[..n]), Replay(u, calls[..n]), calls[n]);
    }
  }
}
