/** Income of a jetton deposit in one block: what transfer notifications announce, plus whatever the balance
  * difference shows that they do not explain. */
module JettonIncome {
  import opened Base
  import opened Cells
  import opened Codec

  datatype OutMessage = OutMessage(internal: bool, dest: Option<Address>, lt: nat, at: nat, body: Cell)

  /** The scanner reads everything of an incoming message but its sender. */
  datatype InMessage = InMessage(internal: bool, src: Option<Address>, lt: nat, at: nat, body: Cell)

  /** A transaction of the deposit's jetton wallet. Whether it succeeded is given. */
  datatype Tx = Tx(lt: nat, now: nat, input: Option<InMessage>, outs: seq<OutMessage>, success: bool)

  datatype Deposit = Deposit(address: Address, owner: Option<Address>, book: AddressBook)

  datatype ScanError = BadAddress | NoOwner | Anomalous

  // ---- Outgoing messages ----

  /** What one outgoing message says: something unknown, a transfer of our own, or an income. */
  datatype Sign = Unknown | Own | Income(income: ExternalIncome)

  function ReadOut(d: Deposit, o: OutMessage): Result<Sign, ScanError> {
    if !o.internal then Ok(Unknown)
    else
      match DecodeNotification(o.body)
      case None => Ok(Unknown)
      case Some(n) =>
        if n.sender.Some? && n.sender.value in d.book then Ok(Own)
        else if o.dest.None? then Err(BadAddress)
        else if d.owner.None? then Err(NoOwner)
        else if o.dest != d.owner then Ok(Unknown)
        else Ok(Income(ExternalIncome(o.lt, o.at, n.sender, d.address, n.amount, n.comment)))
  }

  ghost predicate OutsRead(d: Deposit, outs: seq<OutMessage>) {
    forall o :: o in outs ==> ReadOut(d, o).Ok?
  }

  function Announced(s: Sign): seq<ExternalIncome> {
    if s.Income? then [s.income] else []
  }

  function Incomes(d: Deposit, outs: seq<OutMessage>): seq<ExternalIncome>
    requires OutsRead(d, outs)
  {
    if outs == [] then [] else Incomes(d, outs[..|outs| - 1]) + Announced(ReadOut(d, outs[|outs| - 1]).value)
  }

  ghost predicate HasUnknown(d: Deposit, outs: seq<OutMessage>) {
    exists o :: o in outs && ReadOut(d, o) == Ok(Unknown)
  }

  function Sum(es: seq<ExternalIncome>): int {
    if es == [] then 0 else Sum(es[..|es| - 1]) + es[|es| - 1].amount
  }

  lemma {:induction false} SumConcat(a: seq<ExternalIncome>, b: seq<ExternalIncome>)
    ensures Sum(a + b) == Sum(a) + Sum(b)
    decreases |b|
  {
    if b == [] { assert a + b == a; }
    else {
      SumConcat(a, b[..|b| - 1]);
      assert (a + b)[..|a + b| - 1] == a + b[..|b| - 1];
    }
  }

  lemma {:induction false} OutStep(d: Deposit, outs: seq<OutMessage>, i: nat)
    requires i < |outs| && OutsRead(d, outs[..i])
    ensures OutsRead(d, outs[..i + 1]) <==> ReadOut(d, outs[i]).Ok?
    ensures OutsRead(d, outs) ==> ReadOut(d, outs[i]).Ok?
    ensures OutsRead(d, outs[..i + 1]) ==>
      && Incomes(d, outs[..i + 1]) == Incomes(d, outs[..i]) + Announced(ReadOut(d, outs[i]).value)
      && (HasUnknown(d, outs[..i + 1]) <==> HasUnknown(d, outs[..i]) || ReadOut(d, outs[i]).value == Unknown)
  {
    hide ReadOut;
    assert outs[..i + 1] == outs[..i] + [outs[i]] && outs[..i + 1][..i] == outs[..i];
    assert outs[i] in outs;
  }

  lemma {:induction false} NoOuts(d: Deposit)
    ensures OutsRead(d, []) && Incomes(d, []) == [] && Sum([]) == 0 && !HasUnknown(d, [])
  {}

  lemma {:induction false} SumOne(es: seq<ExternalIncome>, e: ExternalIncome)
    ensures Sum(es + [e]) == Sum(es) + e.amount
  {
    assert (es + [e])[..|es|] == es;
  }

  method ProcessOutMessages(d: Deposit, tx: Tx) returns (r: Result<(seq<ExternalIncome>, int, bool), ScanError>)
    ensures r.Ok? <==> OutsRead(d, tx.outs)
    ensures r.Ok? ==>
      r.value.0 == Incomes(d, tx.outs) && r.value.1 == Sum(r.value.0) && (r.value.2 <==> HasUnknown(d, tx.outs))
  {
    hide ReadOut, OutsRead, Incomes, HasUnknown, Sum;
    NoOuts(d);
    var incomes, known, unknown := [], 0, false;
    var outs := tx.outs;
    for i := 0 to |outs|
      invariant OutsRead(d, outs[..i]) && incomes == Incomes(d, outs[..i]) && known == Sum(incomes)
      invariant unknown <==> HasUnknown(d, outs[..i])
    {
      OutStep(d, outs, i);
      var sign := ReadOut(d, outs[i]);
      if sign.Err? { return Err(sign.error); }
      match sign.value {
        case Unknown => unknown := true;
        case Own =>
        case Income(e) =>
          SumOne(incomes, e);
          incomes := incomes + [e];
          known := known + e.amount;
      }
    }
    assert outs[..|outs|] == outs;
    r := Ok((incomes, known, unknown));
  }

  // ---- The incoming message ----

  datatype Debit = Debit(withdrawal: Option<InternalWithdrawal>, amount: nat, unknown: bool)

  function ReadIn(d: Deposit, tx: Tx): Result<Debit, ScanError> {
    if tx.input.None? || !tx.input.value.internal then Ok(Debit(None, 0, true))
    else
      var m := tx.input.value;
      match DecodeTransfer(m.body)
      case None => Ok(Debit(None, 0, true))
      case Some(t) =>
        if !tx.success then Ok(Debit(Some(InternalWithdrawal(m.lt, m.at, d.address, t.amount, t.comment, true)), 0,
          false))
        else if tx.outs == [] then Err(Anomalous)
        else if t.dest.Some? && t.dest.value in d.book && d.book[t.dest.value] == TonHot then
          Ok(Debit(Some(InternalWithdrawal(m.lt, m.at, d.address, t.amount, t.comment, false)), t.amount, false))
        else Ok(Debit(None, t.amount, false))
  }

  // ---- A block ----

  ghost predicate TxRead(d: Deposit, tx: Tx) {
    OutsRead(d, tx.outs) && ReadIn(d, tx).Ok?
  }

  ghost predicate AllRead(d: Deposit, txs: seq<Tx>) {
    forall i :: 0 <= i < |txs| ==> TxRead(d, txs[i])
  }

  ghost predicate IsUnknown(d: Deposit, tx: Tx) {
    TxRead(d, tx) && (HasUnknown(d, tx.outs) || ReadIn(d, tx).value.unknown)
  }

  function KnownOf(d: Deposit, tx: Tx): int
    requires TxRead(d, tx)
  {
    Sum(Incomes(d, tx.outs))
  }

  function TakenBy(d: Deposit, tx: Tx): nat
    requires TxRead(d, tx)
  {
    ReadIn(d, tx).value.amount
  }

  function WithdrawalOf(d: Deposit, tx: Tx): seq<InternalWithdrawal>
    requires TxRead(d, tx)
  {
    var w := ReadIn(d, tx).value.withdrawal;
    if w.Some? then [w.value] else []
  }

  /** Announced incomes ... */
  function Known(d: Deposit, txs: seq<Tx>): int
    requires AllRead(d, txs)
  {
    hide TxRead;
    if txs == [] then 0 else Known(d, txs[..|txs| - 1]) + KnownOf(d, txs[|txs| - 1])
  }

  /** ... and successful withdrawals of a block. */
  function Withdrawn(d: Deposit, txs: seq<Tx>): int
    requires AllRead(d, txs)
  {
    hide TxRead;
    if txs == [] then 0 else Withdrawn(d, txs[..|txs| - 1]) + TakenBy(d, txs[|txs| - 1])
  }

  function Withdrawals(d: Deposit, txs: seq<Tx>): seq<InternalWithdrawal>
    requires AllRead(d, txs)
  {
    hide TxRead;
    if txs == [] then [] else Withdrawals(d, txs[..|txs| - 1]) + WithdrawalOf(d, txs[|txs| - 1])
  }

  ghost predicate AnyUnknown(d: Deposit, txs: seq<Tx>) {
    exists tx :: tx in txs && IsUnknown(d, tx)
  }

  lemma {:induction false} TxStep(d: Deposit, txs: seq<Tx>, i: nat)
    requires i < |txs| && AllRead(d, txs[..i])
    ensures AllRead(d, txs) ==> TxRead(d, txs[i])
    ensures AllRead(d, txs[..i + 1]) <==> TxRead(d, txs[i])
    ensures AllRead(d, txs[..i + 1]) ==>
      && Known(d, txs[..i + 1]) == Known(d, txs[..i]) + KnownOf(d, txs[i])
      && Withdrawn(d, txs[..i + 1]) == Withdrawn(d, txs[..i]) + TakenBy(d, txs[i])
      && Withdrawals(d, txs[..i + 1]) == Withdrawals(d, txs[..i]) + WithdrawalOf(d, txs[i])
      && (AnyUnknown(d, txs[..i + 1]) <==> AnyUnknown(d, txs[..i]) || IsUnknown(d, txs[i]))
  {
    hide TxRead, KnownOf, TakenBy, WithdrawalOf, IsUnknown;
    assert txs[..i + 1] == txs[..i] + [txs[i]] && txs[..i + 1][..i] == txs[..i];
  }

  lemma {:induction false} NoTxs(d: Deposit)
    ensures AllRead(d, []) && Known(d, []) == 0 && Withdrawn(d, []) == 0 && Withdrawals(d, []) == []
      && !AnyUnknown(d, [])
  {}

  /** All announced incomes of a block, and the transactions with anything unknown, in order. */
  function AllIncomes(d: Deposit, txs: seq<Tx>): seq<ExternalIncome>
    requires AllRead(d, txs)
  {
    hide TxRead;
    if txs == [] then [] else AllIncomes(d, txs[..|txs| - 1]) + IncomesIn(d, txs[|txs| - 1])
  }

  function IncomesIn(d: Deposit, tx: Tx): seq<ExternalIncome>
    requires TxRead(d, tx)
  {
    Incomes(d, tx.outs)
  }

  ghost function UnknownTxs(d: Deposit, txs: seq<Tx>): seq<Tx> {
    if txs == [] then []
    else UnknownTxs(d, txs[..|txs| - 1]) + if IsUnknown(d, txs[|txs| - 1]) then [txs[|txs| - 1]] else []
  }

  lemma {:induction false} ListsStep(d: Deposit, txs: seq<Tx>, i: nat)
    requires i < |txs| && AllRead(d, txs[..i]) && AllRead(d, txs[..i + 1]) && TxRead(d, txs[i])
    ensures AllIncomes(d, txs[..i + 1]) == AllIncomes(d, txs[..i]) + IncomesIn(d, txs[i])
    ensures UnknownTxs(d, txs[..i + 1]) == UnknownTxs(d, txs[..i]) + if IsUnknown(d, txs[i]) then [txs[i]] else []
  {
    hide TxRead, IncomesIn, IsUnknown;
    assert txs[..i + 1] == txs[..i] + [txs[i]] && txs[..i + 1][..i] == txs[..i];
  }

  function Max(a: int, b: int): int { if a > b then a else b }

  /** Rows without a sender, at the times of the transactions: one of zero each, and one of the whole amount at the
    * first. */
  function Rows(d: Deposit, txs: seq<Tx>, amount: int): seq<ExternalIncome> {
    if txs == [] then []
    else
      seq(|txs|, i requires 0 <= i < |txs| => ExternalIncome(txs[i].lt, txs[i].now, None, d.address, 0, []))
      + [ExternalIncome(txs[0].lt, txs[0].now, None, d.address, amount, [])]
  }

  /** Unknown transactions leave one zero row each, and the first also the unexplained amount. */
  method ConvertUnknown(d: Deposit, txs: seq<Tx>, amount: int) returns (incomes: seq<ExternalIncome>)
    ensures Sum(incomes) == if txs == [] then 0 else amount
    ensures incomes == Rows(d, txs, amount)
  {
    incomes := [];
    for i := 0 to |txs|
      invariant incomes ==
        seq(i, k requires 0 <= k < i => ExternalIncome(txs[k].lt, txs[k].now, None, d.address, 0, []))
      invariant Sum(incomes) == 0
    {
      var e := ExternalIncome(txs[i].lt, txs[i].now, None, d.address, 0, []);
      SumConcat(incomes, [e]);
      incomes := incomes + [e];
    }
    if |txs| > 0 {
      var e := ExternalIncome(txs[0].lt, txs[0].now, None, d.address, amount, []);
      SumConcat(incomes, [e]);
      incomes := incomes + [e];
    }
  }

  lemma {:induction false} NoLists(d: Deposit)
    ensures AllIncomes(d, []) == [] && UnknownTxs(d, []) == []
  {}

  /** The recorded incomes of a block: max(announced, balance change + withdrawals) if anything is unknown, else what
    * was announced. */
  method ProcessJettonDeposit(d: Deposit, txs: seq<Tx>, prevBalance: int, balance: int)
    returns (r: Result<Events, ScanError>)
    ensures r.Ok? <==> AllRead(d, txs)
    ensures r.Ok? ==>
      Sum(r.value.extIncomes) ==
        if AnyUnknown(d, txs) then Max(Known(d, txs), balance - prevBalance + Withdrawn(d, txs))
        else Known(d, txs)
    ensures r.Ok? ==> r.value == NO_EVENTS.(extIncomes := r.value.extIncomes, intWithdrawals := Withdrawals(d, txs))
    ensures r.Ok? ==> var rest := balance - prevBalance + Withdrawn(d, txs) - Known(d, txs);
      r.value.extIncomes == AllIncomes(d, txs) + if rest > 0 then Rows(d, UnknownTxs(d, txs), rest) else []
  {
    hide ReadIn, OutsRead, Incomes, HasUnknown, Sum, AllRead, Known, Withdrawn, Withdrawals, AnyUnknown, AllIncomes,
         UnknownTxs, Rows;
    NoTxs(d);
    NoOuts(d);
    NoLists(d);
    var events, known, withdrawn := NO_EVENTS, 0, 0;
    var unknown: seq<Tx> := [];
    for i := 0 to |txs|
      invariant AllRead(d, txs[..i])
      invariant events == NO_EVENTS.(extIncomes := events.extIncomes, intWithdrawals := Withdrawals(d, txs[..i]))
      invariant Sum(events.extIncomes) == known == Known(d, txs[..i]) && withdrawn == Withdrawn(d, txs[..i])
      invariant unknown != [] <==> AnyUnknown(d, txs[..i])
      invariant events.extIncomes == AllIncomes(d, txs[..i]) && unknown == UnknownTxs(d, txs[..i])
    {
      var tx := txs[i];
      TxStep(d, txs, i);
      var outs := ProcessOutMessages(d, tx);
      if outs.Err? { return Err(outs.error); }
      known := known + outs.value.1;
      SumConcat(events.extIncomes, outs.value.0);
      events := events.Append(NO_EVENTS.(extIncomes := outs.value.0));
      var debit := ReadIn(d, tx);
      if debit.Err? { return Err(debit.error); }
      withdrawn := withdrawn + debit.value.amount;
      assert events.extIncomes + [] == events.extIncomes;
      events := events.Append(NO_EVENTS.(intWithdrawals := if debit.value.withdrawal.Some?
        then [debit.value.withdrawal.value] else []));
      ListsStep(d, txs, i);
      if outs.value.2 || debit.value.unknown { unknown := unknown + [tx]; }
    }
    assert txs[..|txs|] == txs;
    var rest := (balance - prevBalance) + withdrawn - known;
    if rest > 0 {
      var more := ConvertUnknown(d, unknown, rest);
      SumConcat(events.extIncomes, more);
      events := events.(extIncomes := events.extIncomes + more);
    }
    r := Ok(events);
  }

  // ---- What is read, message by message ----

  /** A notification of jettons to the deposit's owner, from a sender that the book does not know. */
  predicate Announcement(d: Deposit, o: OutMessage) {
    && o.internal && DecodeNotification(o.body).Some? && d.owner.Some? && o.dest == d.owner
    && var sender := DecodeNotification(o.body).value.sender; !(sender.Some? && sender.value in d.book)
  }

  function AnnouncedBy(d: Deposit, o: OutMessage): ExternalIncome
    requires DecodeNotification(o.body).Some?
  {
    var n := DecodeNotification(o.body).value;
    ExternalIncome(o.lt, o.at, n.sender, d.address, n.amount, n.comment)
  }

  predicate AnnouncedAt(es: seq<ExternalIncome>, k: nat, d: Deposit, o: OutMessage) {
    k < |es| && DecodeNotification(o.body).Some? && es[k] == AnnouncedBy(d, o)
  }

  /** A message that says nothing of an income or of a transfer of ours: no notification, or one of a stranger's jettons
    * to someone other than the owner. */
  predicate Unexplained(d: Deposit, o: OutMessage) {
    || !o.internal || DecodeNotification(o.body).None?
    || (o.dest != d.owner
        && var sender := DecodeNotification(o.body).value.sender; !(sender.Some? && sender.value in d.book))
  }

  /** A message is read unless it notifies of a stranger's jettons and it has no destination or the deposit no owner. */
  lemma SignExact(d: Deposit, o: OutMessage)
    ensures ReadOut(d, o).Err? <==>
      && o.internal && DecodeNotification(o.body).Some? && (o.dest.None? || d.owner.None?)
      && var sender := DecodeNotification(o.body).value.sender; !(sender.Some? && sender.value in d.book)
    ensures ReadOut(d, o).Ok? ==>
      && Announced(ReadOut(d, o).value) == (if Announcement(d, o) then [AnnouncedBy(d, o)] else [])
      && (ReadOut(d, o).value == Unknown <==> Unexplained(d, o))
  {
    hide DecodeNotification;
  }

  function Announcements(d: Deposit, outs: seq<OutMessage>): seq<bool> {
    seq(|outs|, i requires 0 <= i < |outs| => Announcement(d, outs[i]))
  }

  /** One income for each message at these places, in order, with its times, sender, amount and comment. */
  ghost predicate AnnouncedInTurn(es: seq<ExternalIncome>, at: seq<nat>, d: Deposit, outs: seq<OutMessage>) {
    && |at| == |es| && InTurn(at, |outs|)
    && forall k: nat :: k < |at| ==> AnnouncedAt(es, k, d, outs[at[k]])
  }

  /** The incomes of a transaction are one for each announcement ... */
  lemma {:induction false} AnnouncementsExact(d: Deposit, outs: seq<OutMessage>)
    requires OutsRead(d, outs)
    ensures AnnouncedInTurn(Incomes(d, outs), Trues(Announcements(d, outs)), d, outs)
    decreases |outs|
  {
    hide ReadOut, Announcement, AnnouncedBy, Unexplained, OutsRead, Incomes, HasUnknown, AnnouncedAt;
    if outs == [] {
      NoOuts(d);
    } else {
      hide AnnouncedInTurn, Announcements, Trues;
      var n := |outs| - 1;
      LastRead(d, outs);
      AnnouncementsExact(d, outs[..n]);
      SignExact(d, outs[n]);
      AnnouncementsLast(d, outs);
      OneMoreAnnounced(Incomes(d, outs[..n]), Trues(Announcements(d, outs[..n])), d, outs);
    }
  }

  lemma OneMoreAnnounced(es: seq<ExternalIncome>, at: seq<nat>, d: Deposit, outs: seq<OutMessage>)
    requires outs != [] && AnnouncedInTurn(es, at, d, outs[..|outs| - 1])
    ensures var n := |outs| - 1;
      if Announcement(d, outs[n]) then AnnouncedInTurn(es + [AnnouncedBy(d, outs[n])], at + [n], d, outs)
      else AnnouncedInTurn(es + [], at + [], d, outs)
  {
    hide DecodeNotification, AnnouncedAt, AnnouncedBy;
    var n := |outs| - 1;
    var more := if Announcement(d, outs[n]) then [AnnouncedBy(d, outs[n])] else [];
    forall k: nat | k < |at| ensures AnnouncedAt(es + more, k, d, outs[at[k]]) {
      AnnouncedBefore(es, more, k, d, outs[..n][at[k]]);
    }
    if Announcement(d, outs[n]) { AnnouncedLast(es, d, outs[n]); }
  }

  lemma AnnouncementsLast(d: Deposit, outs: seq<OutMessage>)
    requires outs != []
    ensures var n := |outs| - 1;
      && Trues(Announcements(d, outs))
           == Trues(Announcements(d, outs[..n])) + (if Announcement(d, outs[n]) then [n] else [])
      && InTurn(Trues(Announcements(d, outs[..n])), n)
  {
    hide Announcement, Trues;
    TruesLast(Announcements(d, outs));
    assert Announcements(d, outs)[..|outs| - 1] == Announcements(d, outs[..|outs| - 1]);
  }

  /** ... and something in it is unknown exactly when a message is unexplained. */
  lemma {:induction false} UnknownExact(d: Deposit, outs: seq<OutMessage>)
    requires OutsRead(d, outs)
    ensures HasUnknown(d, outs) <==> exists o :: o in outs && Unexplained(d, o)
  {
    hide ReadOut, Unexplained;
    forall o | o in outs ensures ReadOut(d, o) == Ok(Unknown) <==> Unexplained(d, o) { SignExact(d, o); }
  }

  lemma {:induction false} LastRead(d: Deposit, outs: seq<OutMessage>)
    requires outs != [] && OutsRead(d, outs)
    ensures var n := |outs| - 1;
      && OutsRead(d, outs[..n]) && ReadOut(d, outs[n]).Ok?
      && Incomes(d, outs) == Incomes(d, outs[..n]) + Announced(ReadOut(d, outs[n]).value)
  {
    hide ReadOut;
    assert outs[..|outs|] == outs && outs[|outs| - 1] in outs;
    assert forall o :: o in outs[..|outs| - 1] ==> o in outs;
    OutStep(d, outs, |outs| - 1);
  }

  lemma AnnouncedBefore(es: seq<ExternalIncome>, more: seq<ExternalIncome>, k: nat, d: Deposit, o: OutMessage)
    requires AnnouncedAt(es, k, d, o)
    ensures AnnouncedAt(es + more, k, d, o)
  {
    hide DecodeNotification;
  }

  lemma AnnouncedLast(es: seq<ExternalIncome>, d: Deposit, o: OutMessage)
    requires Announcement(d, o)
    ensures AnnouncedAt(es + [AnnouncedBy(d, o)], |es|, d, o)
  {
    hide DecodeNotification;
  }

  /** A request of the deposit's jetton wallet that failed, or that sends jettons to the hot wallet. */
  predicate Withdraws(d: Deposit, tx: Tx) {
    && !NotRequest(tx)
    && var t := DecodeTransfer(tx.input.value.body).value;
      !tx.success || (t.dest.Some? && t.dest.value in d.book && d.book[t.dest.value] == TonHot)
  }

  function WithdrawalBy(d: Deposit, tx: Tx): InternalWithdrawal
    requires !NotRequest(tx)
  {
    var m, t := tx.input.value, DecodeTransfer(tx.input.value.body).value;
    InternalWithdrawal(m.lt, m.at, d.address, t.amount, t.comment, !tx.success)
  }

  predicate WithdrawnAt(ws: seq<InternalWithdrawal>, k: nat, d: Deposit, tx: Tx) {
    k < |ws| && !NotRequest(tx) && ws[k] == WithdrawalBy(d, tx)
  }

  /** An incoming message is read unless it is a request that succeeded without sending anything. */
  lemma RequestRead(d: Deposit, tx: Tx)
    ensures ReadIn(d, tx).Err? <==> !NotRequest(tx) && tx.success && tx.outs == []
  {
    hide DecodeTransfer;
  }

  lemma RequestExact(d: Deposit, tx: Tx)
    requires TxRead(d, tx)
    ensures WithdrawalOf(d, tx) == if Withdraws(d, tx) then [WithdrawalBy(d, tx)] else []
    ensures TakenBy(d, tx)
         == if !NotRequest(tx) && tx.success then DecodeTransfer(tx.input.value.body).value.amount else 0
    ensures IsUnknown(d, tx) <==> NotRequest(tx) || HasUnknown(d, tx.outs)
  {
    hide DecodeTransfer, OutsRead, HasUnknown;
  }

  function Requests(d: Deposit, txs: seq<Tx>): seq<bool> {
    seq(|txs|, i requires 0 <= i < |txs| => Withdraws(d, txs[i]))
  }

  /** One withdrawal for each transaction at these places, in order, with its times, amount and comment. */
  ghost predicate WithdrawnInTurn(ws: seq<InternalWithdrawal>, at: seq<nat>, d: Deposit, txs: seq<Tx>) {
    && |at| == |ws| && InTurn(at, |txs|)
    && forall k: nat :: k < |at| ==> WithdrawnAt(ws, k, d, txs[at[k]])
  }

  /** The withdrawals of a block are one for each such request. */
  lemma {:induction false} RequestsExact(d: Deposit, txs: seq<Tx>)
    requires AllRead(d, txs)
    ensures WithdrawnInTurn(Withdrawals(d, txs), Trues(Requests(d, txs)), d, txs)
    decreases |txs|
  {
    hide TxRead, WithdrawalOf, Withdraws, WithdrawalBy, NotRequest, Withdrawals, AllRead, WithdrawnAt;
    if txs == [] {
      NoTxs(d);
    } else {
      hide WithdrawnInTurn, Requests, Trues;
      var n := |txs| - 1;
      LastTx(d, txs);
      RequestsExact(d, txs[..n]);
      RequestExact(d, txs[n]);
      RequestsLast(d, txs);
      OneMoreWithdrawn(Withdrawals(d, txs[..n]), Trues(Requests(d, txs[..n])), d, txs);
    }
  }

  lemma OneMoreWithdrawn(ws: seq<InternalWithdrawal>, at: seq<nat>, d: Deposit, txs: seq<Tx>)
    requires txs != [] && WithdrawnInTurn(ws, at, d, txs[..|txs| - 1])
    ensures var n := |txs| - 1;
      if Withdraws(d, txs[n]) then WithdrawnInTurn(ws + [WithdrawalBy(d, txs[n])], at + [n], d, txs)
      else WithdrawnInTurn(ws + [], at + [], d, txs)
  {
    hide DecodeTransfer, WithdrawnAt, WithdrawalBy, NotRequest;
    var n := |txs| - 1;
    var more := if Withdraws(d, txs[n]) then [WithdrawalBy(d, txs[n])] else [];
    forall k: nat | k < |at| ensures WithdrawnAt(ws + more, k, d, txs[at[k]]) {
      WithdrawnBefore(ws, more, k, d, txs[..n][at[k]]);
    }
    if Withdraws(d, txs[n]) { WithdrawnLast(ws, d, txs[n]); }
  }

  lemma RequestsLast(d: Deposit, txs: seq<Tx>)
    requires txs != []
    ensures var n := |txs| - 1;
      && Trues(Requests(d, txs)) == Trues(Requests(d, txs[..n])) + (if Withdraws(d, txs[n]) then [n] else [])
      && InTurn(Trues(Requests(d, txs[..n])), n)
  {
    hide Withdraws, Trues;
    TruesLast(Requests(d, txs));
    assert Requests(d, txs)[..|txs| - 1] == Requests(d, txs[..|txs| - 1]);
  }

  lemma {:induction false} LastTx(d: Deposit, txs: seq<Tx>)
    requires txs != [] && AllRead(d, txs)
    ensures AllRead(d, txs[..|txs| - 1]) && TxRead(d, txs[|txs| - 1])
    ensures Withdrawals(d, txs) == Withdrawals(d, txs[..|txs| - 1]) + WithdrawalOf(d, txs[|txs| - 1])
  {
    hide TxRead, WithdrawalOf;
  }

  lemma WithdrawnBefore(ws: seq<InternalWithdrawal>, more: seq<InternalWithdrawal>, k: nat, d: Deposit, tx: Tx)
    requires WithdrawnAt(ws, k, d, tx)
    ensures WithdrawnAt(ws + more, k, d, tx)
  {
    hide DecodeTransfer;
  }

  lemma WithdrawnLast(ws: seq<InternalWithdrawal>, d: Deposit, tx: Tx)
    requires Withdraws(d, tx)
    ensures WithdrawnAt(ws + [WithdrawalBy(d, tx)], |ws|, d, tx)
  {
    hide DecodeTransfer;
  }

  // ---- Conservation ----

  /** What a transaction of a wallet that follows TEP-74 did to its jettons: received them, announced to the owner
    * or silently, sent them as requested, burnt them, or nothing. */
  datatype Move = Credit(amount: nat, announced: bool) | Debited(taken: nat) | Burned(burnt: nat) | Nothing

  predicate NotRequest(tx: Tx) {
    tx.input.None? || !tx.input.value.internal || DecodeTransfer(tx.input.value.body) == None
  }

  predicate Silent(o: OutMessage) { DecodeNotification(o.body) == None }

  predicate Tells(o: OutMessage, amount: nat) {
    DecodeNotification(o.body).Some? && DecodeNotification(o.body).value.amount == amount
  }

  ghost predicate AllSilent(outs: seq<OutMessage>) {
    forall o :: o in outs ==> Silent(o)
  }

  /** A credit is notified at most once, and truthfully. */
  ghost predicate Truthful(outs: seq<OutMessage>, amount: nat) {
    && (forall o :: o in outs ==> Silent(o) || Tells(o, amount))
    && forall i, j :: 0 <= i < j < |outs| ==> Silent(outs[i]) || Silent(outs[j])
  }

  ghost predicate Announces(d: Deposit, outs: seq<OutMessage>) {
    exists o :: o in outs && ReadOut(d, o).Ok? && ReadOut(d, o).value.Income?
  }

  /** A credit comes from another wallet, whatever its message; a debit obeys a transfer request and leaves
    * through some message; a request that fails moves nothing. */
  ghost predicate Follows(d: Deposit, tx: Tx, m: Move) {
    match m
    case Credit(a, announced) => NotRequest(tx) && Truthful(tx.outs, a) && (announced <==> Announces(d, tx.outs))
    case Debited(a) =>
      && !NotRequest(tx) && tx.success && tx.outs != [] && AllSilent(tx.outs)
      && DecodeTransfer(tx.input.value.body).value.amount == a
    case Burned(_) => NotRequest(tx) && AllSilent(tx.outs)
    case Nothing => AllSilent(tx.outs) && (NotRequest(tx) || !tx.success)
  }

  ghost predicate AllFollow(d: Deposit, txs: seq<Tx>, moves: seq<Move>) {
    |moves| == |txs| && forall i :: 0 <= i < |txs| ==> Follows(d, txs[i], moves[i])
  }

  function CreditOf(m: Move): nat { if m.Credit? then m.amount else 0 }
  function UnannouncedOf(m: Move): nat { if m.Credit? && !m.announced then m.amount else 0 }
  function DebitOf(m: Move): nat { if m.Debited? then m.taken else 0 }
  function BurnOf(m: Move): nat { if m.Burned? then m.burnt else 0 }

  function Credits(moves: seq<Move>): nat {
    if moves == [] then 0 else Credits(moves[..|moves| - 1]) + CreditOf(moves[|moves| - 1])
  }

  function Unannounced(moves: seq<Move>): nat {
    if moves == [] then 0 else Unannounced(moves[..|moves| - 1]) + UnannouncedOf(moves[|moves| - 1])
  }

  function Debits(moves: seq<Move>): nat {
    if moves == [] then 0 else Debits(moves[..|moves| - 1]) + DebitOf(moves[|moves| - 1])
  }

  function Burns(moves: seq<Move>): nat {
    if moves == [] then 0 else Burns(moves[..|moves| - 1]) + BurnOf(moves[|moves| - 1])
  }

  lemma ReadSilent(d: Deposit, o: OutMessage)
    requires Silent(o)
    ensures ReadOut(d, o) == Ok(Unknown)
  {
    hide DecodeNotification;
  }

  lemma ReadTold(d: Deposit, o: OutMessage, a: nat)
    requires Tells(o, a) && ReadOut(d, o).Ok?
    ensures var e := Announced(ReadOut(d, o).value);
      if ReadOut(d, o).value.Income? then |e| == 1 && e[0].amount == a else e == []
  {
    hide DecodeNotification;
  }

  lemma {:induction false} LastOut(d: Deposit, outs: seq<OutMessage>)
    requires outs != [] && OutsRead(d, outs)
    ensures var n := |outs| - 1;
      && OutsRead(d, outs[..n]) && outs[n] in outs && ReadOut(d, outs[n]).Ok?
      && Incomes(d, outs) == Incomes(d, outs[..n]) + Announced(ReadOut(d, outs[n]).value)
      && (Announces(d, outs) <==> Announces(d, outs[..n]) || ReadOut(d, outs[n]).value.Income?)
  {
    hide ReadOut;
    var n := |outs| - 1;
    assert outs == outs[..n] + [outs[n]];
  }

  lemma {:induction false} SilentIncomes(d: Deposit, outs: seq<OutMessage>)
    requires OutsRead(d, outs) && AllSilent(outs)
    ensures Incomes(d, outs) == [] && !Announces(d, outs)
    decreases |outs|
  {
    hide ReadOut, Silent, OutsRead;
    if outs != [] {
      var n := |outs| - 1;
      LastOut(d, outs);
      SilentIncomes(d, outs[..n]);
      ReadSilent(d, outs[n]);
    }
  }

  lemma {:induction false} CreditIncomes(d: Deposit, outs: seq<OutMessage>, a: nat)
    requires OutsRead(d, outs) && Truthful(outs, a)
    ensures Sum(Incomes(d, outs)) == if Announces(d, outs) then a else 0
    decreases |outs|
  {
    hide ReadOut, Silent, Tells, OutsRead, Incomes, Announces, Sum;
    if outs == [] {
      NoOuts(d);
      SilentIncomes(d, outs);
    } else {
      var n := |outs| - 1;
      LastOut(d, outs);
      if Silent(outs[n]) {
        CreditIncomes(d, outs[..n], a);
        ReadSilent(d, outs[n]);
        NothingAnnounced(d, outs);
      } else {
        forall o | o in outs[..n] ensures Silent(o) { var i :| 0 <= i < n && outs[i] == o; }
        SilentIncomes(d, outs[..n]);
        ReadTold(d, outs[n], a);
        OneAnnounced(d, outs, a);
      }
    }
  }

  lemma {:induction false} NothingAnnounced(d: Deposit, outs: seq<OutMessage>)
    requires outs != [] && OutsRead(d, outs) && ReadOut(d, outs[|outs| - 1]) == Ok(Unknown)
    ensures Incomes(d, outs) == Incomes(d, outs[..|outs| - 1])
  {
    hide ReadOut;
  }

  lemma {:induction false} OneAnnounced(d: Deposit, outs: seq<OutMessage>, a: nat)
    requires outs != [] && OutsRead(d, outs) && ReadOut(d, outs[|outs| - 1]).Ok? && Incomes(d, outs[..|outs| - 1]) == []
    requires var s := ReadOut(d, outs[|outs| - 1]).value; s.Income? ==> s.income.amount == a
    ensures Sum(Incomes(d, outs)) == if ReadOut(d, outs[|outs| - 1]).value.Income? then a else 0
  {
    hide ReadOut;
    var s := ReadOut(d, outs[|outs| - 1]).value;
    if s.Income? { SumOne([], s.income); assert [] + [s.income] == [s.income]; }
  }

  lemma MoveReads(d: Deposit, tx: Tx, m: Move)
    requires Follows(d, tx, m) && TxRead(d, tx)
    ensures KnownOf(d, tx) == CreditOf(m) - UnannouncedOf(m) && TakenBy(d, tx) == DebitOf(m)
    ensures m.Credit? || m.Burned? ==> IsUnknown(d, tx)
  {
    hide DecodeTransfer, Incomes, OutsRead, Silent, Tells, HasUnknown, Sum;
    NoOuts(d);
    if m.Credit? { CreditIncomes(d, tx.outs, m.amount); } else { SilentIncomes(d, tx.outs); }
  }

  lemma {:induction false} MovesRead(d: Deposit, txs: seq<Tx>, moves: seq<Move>)
    requires AllFollow(d, txs, moves) && AllRead(d, txs)
    ensures Known(d, txs) == Credits(moves) - Unannounced(moves) && Withdrawn(d, txs) == Debits(moves)
    ensures Unannounced(moves) <= Credits(moves) && (Credits(moves) > 0 || Burns(moves) > 0 ==> AnyUnknown(d, txs))
    decreases |txs|
  {
    hide Follows, KnownOf, TakenBy, TxRead, IsUnknown, Credits, Unannounced, Debits, Burns, Known, Withdrawn,
         AnyUnknown;
    if txs == [] {
      NoTxs(d);
      NoMoves();
    } else {
      var n := |txs| - 1;
      assert txs[..n + 1] == txs;
      MovesRead(d, txs[..n], moves[..n]);
      TxStep(d, txs, n);
      MoveReads(d, txs[n], moves[n]);
      MovesStep(moves);
    }
  }

  lemma NoMoves()
    ensures Credits([]) == Unannounced([]) == Debits([]) == Burns([]) == 0
  {}

  lemma MovesStep(moves: seq<Move>)
    requires moves != []
    ensures var before, m := moves[..|moves| - 1], moves[|moves| - 1];
      && Credits(moves) == Credits(before) + CreditOf(m) && Unannounced(moves) == Unannounced(before) + UnannouncedOf(m)
      && Debits(moves) == Debits(before) + DebitOf(m) && Burns(moves) == Burns(before) + BurnOf(m)
  {}

  /** What a block's processing records: announced or inferred. */
  ghost function Recorded(d: Deposit, txs: seq<Tx>, prevBalance: int, balance: int): int
    requires AllRead(d, txs)
  {
    if AnyUnknown(d, txs) then Max(Known(d, txs), balance - prevBalance + Withdrawn(d, txs)) else Known(d, txs)
  }

  function Min(a: int, b: int): int { if a < b then a else b }

  /** For a wallet that follows TEP-74, whoever sends to it: the record misses exactly the smaller of what came
    * unannounced and what was burnt. */
  lemma {:induction false} RecordMissesExactly(d: Deposit, txs: seq<Tx>, moves: seq<Move>, prevBalance: int,
                                               balance: int)
    requires AllFollow(d, txs, moves) && AllRead(d, txs)
    requires balance == prevBalance + Credits(moves) - Debits(moves) - Burns(moves)
    ensures Recorded(d, txs, prevBalance, balance) == Credits(moves) - Min(Unannounced(moves), Burns(moves))
  {
    hide AllFollow, AnyUnknown, Known, Withdrawn, Credits, Debits, Burns, Unannounced;
    MovesRead(d, txs, moves);
  }

  /** So it is what was received if and only if nothing was burnt or everything was announced. */
  lemma {:induction false} RecordedIsReceivedIff(d: Deposit, txs: seq<Tx>, moves: seq<Move>, prevBalance: int,
                                                 balance: int)
    requires AllFollow(d, txs, moves) && AllRead(d, txs)
    requires balance == prevBalance + Credits(moves) - Debits(moves) - Burns(moves)
    ensures Recorded(d, txs, prevBalance, balance) == Credits(moves) <==> Burns(moves) == 0 || Unannounced(moves) == 0
  {
    hide AllFollow, AnyUnknown, Known, Withdrawn, Credits, Debits, Burns, Unannounced, Recorded;
    RecordMissesExactly(d, txs, moves, prevBalance, balance);
  }

  datatype Block = Block(txs: seq<Tx>, moves: seq<Move>, before: int, after: int)

  ghost predicate Sound(d: Deposit, b: Block) {
    && AllFollow(d, b.txs, b.moves) && AllRead(d, b.txs)
    && b.after == b.before + Credits(b.moves) - Debits(b.moves) - Burns(b.moves)
  }

  /** Blocks in order; nothing happens to the wallet between them. */
  ghost predicate Consecutive(d: Deposit, bs: seq<Block>) {
    && (forall i :: 0 <= i < |bs| ==> Sound(d, bs[i]))
    && forall i :: 0 < i < |bs| ==> bs[i].before == bs[i - 1].after
  }

  ghost function TotalRecorded(d: Deposit, bs: seq<Block>): int
    requires forall i :: 0 <= i < |bs| ==> AllRead(d, bs[i].txs)
  {
    if bs == [] then 0
    else
      var b := bs[|bs| - 1];
      TotalRecorded(d, bs[..|bs| - 1]) + Recorded(d, b.txs, b.before, b.after)
  }

  function TotalWithdrawn(d: Deposit, bs: seq<Block>): int
    requires forall i :: 0 <= i < |bs| ==> AllRead(d, bs[i].txs)
  {
    if bs == [] then 0 else TotalWithdrawn(d, bs[..|bs| - 1]) + Withdrawn(d, bs[|bs| - 1].txs)
  }

  function TotalBurnt(bs: seq<Block>): nat {
    if bs == [] then 0 else TotalBurnt(bs[..|bs| - 1]) + Burns(bs[|bs| - 1].moves)
  }

  /** What the records miss: block by block the smaller of what came unannounced and what was burnt. */
  function TotalMissed(bs: seq<Block>): nat {
    if bs == [] then 0
    else
      var moves := bs[|bs| - 1].moves;
      TotalMissed(bs[..|bs| - 1]) + Min(Unannounced(moves), Burns(moves))
  }

  /** Over any number of blocks, recorded and missed incomes minus withdrawals and burns telescope to the change of the
    * balance. */
  lemma {:induction false} IncomesTelescope(d: Deposit, bs: seq<Block>)
    requires Consecutive(d, bs) && bs != []
    ensures TotalRecorded(d, bs) + TotalMissed(bs) - TotalWithdrawn(d, bs) - TotalBurnt(bs)
         == bs[|bs| - 1].after - bs[0].before
    decreases |bs|
  {
    hide AllFollow, Recorded, Withdrawn, Credits, Debits, Burns, Unannounced;
    var n := |bs| - 1;
    var b := bs[n];
    assert Sound(d, b);
    RecordMissesExactly(d, b.txs, b.moves, b.before, b.after);
    MovesRead(d, b.txs, b.moves);
    if n == 0 {
      assert bs[..0] == [];
    } else {
      IncomesTelescope(d, bs[..n]);
      assert bs[..n][n - 1] == bs[n - 1] && bs[..n][0] == bs[0];
    }
  }
}
