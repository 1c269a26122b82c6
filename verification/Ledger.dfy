/** The tables, and what each repository call does to them.
  * A rejected call stands for an SQL or application error: its transaction is rolled back. */
module Ledger {
  import opened Base
  import opened Uuids

  datatype Rejection = ExpirationMisfire | EventOrder | MissingRow | DuplicateKey | BadMemo

  datatype Request = Request(
    currency: Currency, amount: nat, dest: Address, bounceable: bool, comment: Text,
    processing: bool, processed: bool)

  datatype ExtKey = ExtKey(msg: MsgId, to: Address)

  datatype ExtRow = ExtRow(queryId: int, expiredAt: Time, processedLt: Option<nat>, failed: bool, confirmed: bool)

  datatype IntRow = IntRow(
    deposit: Address, sinceLt: nat, expiredAt: Time,
    sendingLt: Option<nat>, finishLt: Option<nat>, amount: int, failed: bool)

  datatype IncomeKey = IncomeKey(memo: Uuid, lt: nat)

  datatype ServiceRow = ServiceRow(
    payer: Address, master: Option<Address>, tonAmount: nat, jettonAmount: nat,
    expiredAt: Time, filled: bool, processed: bool)

  datatype External = External(requests: map<int, Request>, rows: map<ExtKey, ExtRow>)

  datatype Tables = Tables(
    external: External,
    internals: map<Uuid, IntRow>,
    extIncomes: multiset<ExternalIncome>,
    intIncomes: map<IncomeKey, InternalIncome>,
    blocks: map<BlockKey, Time>)

  // ---- External withdrawals ----

  predicate DistinctDests(tasks: seq<ExternalTask>) {
    forall i, j :: 0 <= i < j < |tasks| ==> tasks[i].dest != tasks[j].dest
  }

  predicate FreshRows(x: External, tasks: seq<ExternalTask>, msg: MsgId) {
    DistinctDests(tasks) && forall t :: t in tasks ==> ExtKey(msg, t.dest) !in x.rows
  }

  function TaskQueries(tasks: seq<ExternalTask>): set<int> {
    set t | t in tasks :: t.queryId
  }

  function SetProcessing(requests: map<int, Request>, ids: set<int>, flag: bool): map<int, Request> {
    map q | q in requests :: if q in ids then requests[q].(processing := flag) else requests[q]
  }

  function SetProcessed(requests: map<int, Request>, ids: set<int>): map<int, Request> {
    map q | q in requests :: if q in ids then requests[q].(processed := true) else requests[q]
  }

  function NewRows(tasks: seq<ExternalTask>, msg: MsgId, expiredAt: Time): map<ExtKey, ExtRow>
    requires DistinctDests(tasks)
  {
    map t | t in tasks :: ExtKey(msg, t.dest) := ExtRow(t.queryId, expiredAt, None, false, false)
  }

  /** Persisting a batch: one row per task, requests marked; nothing at all if a row already exists. */
  function CreateExternal(x: External, tasks: seq<ExternalTask>, msg: MsgId,
                          expiredAt: Time): Result<External, Rejection> {
    if FreshRows(x, tasks, msg) then
      Ok(External(SetProcessing(x.requests, TaskQueries(tasks), true), x.rows + NewRows(tasks, msg, expiredAt)))
    else Err(DuplicateKey)
  }

  function UpdateExternal(x: External, e: ExternalWithdrawal): Result<External, Rejection> {
    var k := ExtKey(e.msg, e.to);
    if k !in x.rows then Err(MissingRow)
    else if x.rows[k].failed then Err(ExpirationMisfire)
    else if e.isFailed then
      Ok(External(SetProcessing(x.requests, {x.rows[k].queryId}, false), x.rows[k := x.rows[k].(failed := true)]))
    else
      Ok(External(SetProcessed(x.requests, {x.rows[k].queryId}), x.rows[k := x.rows[k].(processedLt := Some(e.lt))]))
  }

  /** An excess message confirms every processed row of its query. */
  function ConfirmExternal(x: External, queryId: int): External {
    x.(rows := map k | k in x.rows ::
         if x.rows[k].queryId == queryId && x.rows[k].processedLt.Some? then x.rows[k].(confirmed := true)
         else x.rows[k])
  }

  predicate StaleExternal(r: ExtRow, cutoff: Time) {
    r.expiredAt < cutoff && r.processedLt.None? && !r.failed
  }

  function StaleQueries(x: External, cutoff: Time): set<int> {
    set k | k in x.rows && StaleExternal(x.rows[k], cutoff) :: x.rows[k].queryId
  }

  /** Expiry: stale rows fail and their requests re-open. */
  function ExpireExternal(x: External, cutoff: Time): External {
    External(
      SetProcessing(x.requests, StaleQueries(x, cutoff), false),
      map k | k in x.rows :: if StaleExternal(x.rows[k], cutoff) then x.rows[k].(failed := true) else x.rows[k])
  }

  // ---- Internal withdrawals and incomes ----

  predicate StaleInternal(r: IntRow, cutoff: Time) {
    r.expiredAt < cutoff && r.sendingLt.None? && !r.failed
  }

  function ExpireInternal(rows: map<Uuid, IntRow>, cutoff: Time): map<Uuid, IntRow> {
    map m | m in rows :: if StaleInternal(rows[m], cutoff) then rows[m].(failed := true) else rows[m]
  }

  function SaveTask(rows: map<Uuid, IntRow>, t: InternalTask, expiredAt: Time,
                    memo: Uuid): Result<map<Uuid, IntRow>, Rejection> {
    if memo in rows then Err(DuplicateKey)
    else Ok(rows[memo := IntRow(t.deposit, t.lt, expiredAt, None, None, 0, false)])
  }

  function ApplySending(rows: map<Uuid, IntRow>, c: SendingConfirmation): Result<map<Uuid, IntRow>, Rejection> {
    match ParseUuid(c.memo)
    case None => Err(BadMemo)
    case Some(m) =>
      if m !in rows then Err(MissingRow)
      else if rows[m].failed then Err(ExpirationMisfire)
      else Ok(rows[m := rows[m].(sendingLt := Some(c.lt))])
  }

  function UpdateInternal(rows: map<Uuid, IntRow>, w: InternalWithdrawal): Result<map<Uuid, IntRow>, Rejection> {
    match ParseUuid(w.memo)
    case None => Err(BadMemo)
    case Some(m) =>
      if m in rows && rows[m].failed then Err(ExpirationMisfire)
      else if m !in rows || rows[m].sendingLt.None? then Err(EventOrder)
      else if w.isFailed then Ok(rows[m := rows[m].(failed := true)])
      else Ok(rows[m := rows[m].(finishLt := Some(w.lt), amount := rows[m].amount + w.amount)])
  }

  function SaveIntIncome(incomes: map<IncomeKey, InternalIncome>,
                         i: InternalIncome): Result<map<IncomeKey, InternalIncome>, Rejection> {
    match ParseUuid(i.memo)
    case None => Err(BadMemo)
    case Some(m) => if IncomeKey(m, i.lt) in incomes then Err(DuplicateKey) else Ok(incomes[IncomeKey(m, i.lt) := i])
  }

  // ---- Service withdrawals ----

  /** One statement for both outcomes: a filled request waits for its second leg, any other is processed. */
  function UpdateService(rows: map<Uuid, ServiceRow>, t: ServiceTask, tonAmount: nat, expiredAt: Time,
                         filled: bool): map<Uuid, ServiceRow> {
    if t.memo !in rows then rows
    else rows[t.memo := rows[t.memo].(tonAmount := tonAmount, jettonAmount := t.jettonAmount, processed := !filled,
                                      expiredAt := expiredAt, filled := filled)]
  }

  // ---- Applying one block ----

  /** One table change of a block, whatever its kind. */
  datatype Change =
    | AddExtIncome(ei: ExternalIncome)
    | AddIntIncome(ii: InternalIncome)
    | Sending(sc: SendingConfirmation)
    | Internal(iw: InternalWithdrawal)
    | Extern(ew: ExternalWithdrawal)
    | Confirmation(wc: WithdrawalConfirmation)

  function ApplyChange(t: Tables, c: Change): Result<Tables, Rejection> {
    match c
    case AddExtIncome(e) => Ok(t.(extIncomes := t.extIncomes + multiset{e}))
    case AddIntIncome(e) =>
      (match SaveIntIncome(t.intIncomes, e) case Ok(v) => Ok(t.(intIncomes := v)) case Err(r) => Err(r))
    case Sending(e) =>
      (match ApplySending(t.internals, e) case Ok(v) => Ok(t.(internals := v)) case Err(r) => Err(r))
    case Internal(e) =>
      (match UpdateInternal(t.internals, e) case Ok(v) => Ok(t.(internals := v)) case Err(r) => Err(r))
    case Extern(e) =>
      (match UpdateExternal(t.external, e) case Ok(v) => Ok(t.(external := v)) case Err(r) => Err(r))
    case Confirmation(e) => Ok(t.(external := ConfirmExternal(t.external, e.queryId)))
  }

  /** Changes in order, stopping at the first rejection. */
  function ApplyChanges(t: Tables, cs: seq<Change>): Result<Tables, Rejection>
    decreases |cs|
  {
    if cs == [] then Ok(t)
    else
      match ApplyChanges(t, cs[..|cs| - 1])
      case Ok(u) => ApplyChange(u, cs[|cs| - 1])
      case Err(r) => Err(r)
  }

  function ExtIncomeChanges(es: seq<ExternalIncome>): seq<Change> {
    seq(|es|, i requires 0 <= i < |es| => AddExtIncome(es[i]))
  }

  function IntIncomeChanges(es: seq<InternalIncome>): seq<Change> {
    seq(|es|, i requires 0 <= i < |es| => AddIntIncome(es[i]))
  }

  function SendingChanges(es: seq<SendingConfirmation>): seq<Change> {
    seq(|es|, i requires 0 <= i < |es| => Sending(es[i]))
  }

  function InternalChanges(es: seq<InternalWithdrawal>): seq<Change> {
    seq(|es|, i requires 0 <= i < |es| => Internal(es[i]))
  }

  function ExternalChanges(es: seq<ExternalWithdrawal>): seq<Change> {
    seq(|es|, i requires 0 <= i < |es| => Extern(es[i]))
  }

  function ConfirmationChanges(es: seq<WithdrawalConfirmation>): seq<Change> {
    seq(|es|, i requires 0 <= i < |es| => Confirmation(es[i]))
  }

  /** The events of a block in the order they are applied: kind by kind. */
  function ChangesOf(e: Events): seq<Change> {
    ExtIncomeChanges(e.extIncomes) + IntIncomeChanges(e.intIncomes) + SendingChanges(e.sendings)
    + InternalChanges(e.intWithdrawals) + ExternalChanges(e.extWithdrawals) + ConfirmationChanges(e.confirmations)
  }

  /** A block applies as a whole, with its own uniquely keyed row last, or not at all. */
  function ApplyBlock(t: Tables, b: BlockEvents): Result<Tables, Rejection> {
    match ApplyChanges(t, ChangesOf(b.events))
    case Err(r) => Err(r)
    case Ok(u) => if b.key in u.blocks then Err(DuplicateKey) else Ok(u.(blocks := u.blocks[b.key := b.genUtime]))
  }
}
