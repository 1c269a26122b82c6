/** What the scanner reads in the transactions of TON wallets: withdrawals and payments of a deposit, and what
  * arrives at the hot wallet. */
module WalletScan {
  import opened Base
  import opened Cells
  import opened Codec

  datatype Incoming = Incoming(src: Option<Address>, lt: nat, at: nat, value: nat, body: Cell)

  datatype Outgoing = Outgoing(internal: bool, dest: Option<Address>, lt: nat, at: nat, value: nat, body: Cell)

  /** What started a transaction. */
  datatype Input = Missing | ExternalIn | InternalIn(msg: Incoming) | Odd

  datatype Tx = Tx(input: Input, outs: seq<Outgoing>, success: bool)

  datatype ScanError = BadAddress | Anomalous

  function CommentOf(body: Cell): Text { LoadComment(Some(body)) }

  // ---- A TON deposit ----

  predicate ToHot(book: AddressBook, o: Outgoing) {
    o.dest.Some? && o.dest.value in book && book[o.dest.value] == TonHot
  }

  /** The messages to the hot wallet. */
  function Sent(book: AddressBook, outs: seq<Outgoing>): seq<Outgoing> {
    if outs == [] then []
    else Sent(book, outs[..|outs| - 1]) + if ToHot(book, outs[|outs| - 1]) then [outs[|outs| - 1]] else []
  }

  function Confirmations(a: Address, outs: seq<Outgoing>): seq<SendingConfirmation> {
    seq(|outs|, i requires 0 <= i < |outs| => SendingConfirmation(outs[i].lt, a, CommentOf(outs[i].body)))
  }

  function Transfers(a: Address, outs: seq<Outgoing>): seq<InternalWithdrawal> {
    seq(|outs|, i requires 0 <= i < |outs| =>
      InternalWithdrawal(outs[i].lt, outs[i].at, a, outs[i].value, CommentOf(outs[i].body), false))
  }

  predicate Unknown(book: AddressBook, m: Incoming) { m.src.None? || m.src.value !in book }

  /** A transaction that ran is either a withdrawal or a payment. */
  predicate Readable(tx: Tx) {
    match tx.input
    case Missing => false
    case ExternalIn => tx.success ==> forall o :: o in tx.outs ==> o.internal
    case InternalIn(_) => tx.success ==> tx.outs == []
    case Odd => !tx.success
  }

  function DeparturesOf(book: AddressBook, tx: Tx): seq<Outgoing> {
    if tx.success && tx.input.ExternalIn? then Sent(book, tx.outs) else []
  }

  function PaymentsOf(book: AddressBook, a: Address, tx: Tx): seq<ExternalIncome> {
    if tx.success && tx.input.InternalIn? && Unknown(book, tx.input.msg) then
      var m := tx.input.msg;
      [ExternalIncome(m.lt, m.at, m.src, a, m.value, CommentOf(m.body))]
    else []
  }

  function Departures(book: AddressBook, txs: seq<Tx>): seq<Outgoing> {
    if txs == [] then [] else Departures(book, txs[..|txs| - 1]) + DeparturesOf(book, txs[|txs| - 1])
  }

  function Payments(book: AddressBook, a: Address, txs: seq<Tx>): seq<ExternalIncome> {
    if txs == [] then [] else Payments(book, a, txs[..|txs| - 1]) + PaymentsOf(book, a, txs[|txs| - 1])
  }

  lemma {:induction false} SentStep(book: AddressBook, a: Address, outs: seq<Outgoing>, i: nat)
    requires i < |outs|
    ensures var o, before, after := outs[i], Sent(book, outs[..i]), Sent(book, outs[..i + 1]);
      && (!ToHot(book, o) ==> after == before)
      && (ToHot(book, o) ==>
            && Confirmations(a, after) == Confirmations(a, before) + [SendingConfirmation(o.lt, a, CommentOf(o.body))]
            && Transfers(a, after) == Transfers(a, before)
                 + [InternalWithdrawal(o.lt, o.at, a, o.value, CommentOf(o.body), false)])
  {
    hide ToHot, CommentOf;
    assert outs[..i + 1][..i] == outs[..i];
  }

  /** A message to the hot wallet is a confirmation and a withdrawal at once; a message to anyone else is skipped. */
  method ProcessWithdrawal(book: AddressBook, a: Address, tx: Tx) returns (r: Result<Events, ScanError>)
    ensures r.Ok? <==> forall o :: o in tx.outs ==> o.internal
    ensures r.Ok? ==> var sent := Sent(book, tx.outs);
      r.value == NO_EVENTS.(sendings := Confirmations(a, sent), intWithdrawals := Transfers(a, sent))
  {
    hide ToHot, CommentOf, Sent, Confirmations, Transfers;
    var events := NO_EVENTS;
    NothingLeft(book, a);
    for i := 0 to |tx.outs|
      invariant forall o :: o in tx.outs[..i] ==> o.internal
      invariant var sent := Sent(book, tx.outs[..i]);
        events == NO_EVENTS.(sendings := Confirmations(a, sent), intWithdrawals := Transfers(a, sent))
    {
      var o := tx.outs[i];
      assert tx.outs[..i + 1] == tx.outs[..i] + [o];
      SentStep(book, a, tx.outs, i);
      if !o.internal {
        assert o in tx.outs;
        return Err(Anomalous);
      }
      if ToHot(book, o) {
        events := events.(
          sendings := events.sendings + [SendingConfirmation(o.lt, a, CommentOf(o.body))],
          intWithdrawals := events.intWithdrawals
            + [InternalWithdrawal(o.lt, o.at, a, o.value, CommentOf(o.body), false)]);
      }
    }
    assert tx.outs[..|tx.outs|] == tx.outs;
    r := Ok(events);
  }

  lemma {:induction false} DepositStep(book: AddressBook, a: Address, txs: seq<Tx>, i: nat)
    requires i < |txs|
    ensures Departures(book, txs[..i + 1]) == Departures(book, txs[..i]) + DeparturesOf(book, txs[i])
    ensures Payments(book, a, txs[..i + 1]) == Payments(book, a, txs[..i]) + PaymentsOf(book, a, txs[i])
  {
    hide DeparturesOf, PaymentsOf;
    assert txs[..i + 1][..i] == txs[..i];
  }

  lemma SplitSent(a: Address, p: seq<Outgoing>, q: seq<Outgoing>)
    ensures Confirmations(a, p + q) == Confirmations(a, p) + Confirmations(a, q)
    ensures Transfers(a, p + q) == Transfers(a, p) + Transfers(a, q)
  {
    hide CommentOf;
  }

  /** A TON deposit's transactions of a block, oldest first. */
  method ProcessTonDeposit(book: AddressBook, a: Address, txs: seq<Tx>) returns (r: Result<Events, ScanError>)
    ensures r.Ok? <==> forall i :: 0 <= i < |txs| ==> Readable(txs[i])
    ensures r.Ok? ==> var left := Departures(book, txs);
      r.value == NO_EVENTS.(extIncomes := Payments(book, a, txs), sendings := Confirmations(a, left),
        intWithdrawals := Transfers(a, left))
  {
    hide Sent, Confirmations, Transfers, CommentOf, Unknown, Departures, Payments;
    var events := NO_EVENTS;
    NothingLeft(book, a);
    for i := 0 to |txs|
      invariant forall j :: 0 <= j < i ==> Readable(txs[j])
      invariant var left := Departures(book, txs[..i]);
        events == NO_EVENTS.(extIncomes := Payments(book, a, txs[..i]), sendings := Confirmations(a, left),
          intWithdrawals := Transfers(a, left))
    {
      var tx := txs[i];
      DepositStep(book, a, txs, i);
      SplitSent(a, Departures(book, txs[..i]), DeparturesOf(book, tx));
      if tx.input.Missing? { return Err(Anomalous); }
      if tx.success {
        match tx.input {
          case ExternalIn =>
            var e := ProcessWithdrawal(book, a, tx);
            if e.Err? { return Err(e.error); }
            AppendOuter(events, e.value);
            events := events.Append(e.value);
          case InternalIn(m) =>
            if tx.outs != [] { return Err(Anomalous); }
            var e := NO_EVENTS.(extIncomes :=
              if Unknown(book, m) then [ExternalIncome(m.lt, m.at, m.src, a, m.value, CommentOf(m.body))] else []);
            AppendOuter(events, e);
            events := events.Append(e);
          case Odd => return Err(Anomalous);
        }
      }
    }
    assert txs[..|txs|] == txs;
    r := Ok(events);
  }

  lemma {:induction false} NothingLeft(book: AddressBook, a: Address)
    ensures Departures(book, []) == [] && Payments(book, a, []) == [] && Confirmations(a, []) == []
      && Transfers(a, []) == [] && Sent(book, []) == []
  {}

  lemma AppendOuter(e: Events, f: Events)
    requires e == NO_EVENTS.(extIncomes := e.extIncomes, sendings := e.sendings, intWithdrawals := e.intWithdrawals)
    requires f == NO_EVENTS.(extIncomes := f.extIncomes, sendings := f.sendings, intWithdrawals := f.intWithdrawals)
    ensures e.Append(f) == NO_EVENTS.(extIncomes := e.extIncomes + f.extIncomes, sendings := e.sendings + f.sendings,
                                      intWithdrawals := e.intWithdrawals + f.intWithdrawals)
  {}

  // ---- What is read of a deposit, transaction by transaction ----

  /** The message goes to a hot wallet of the book. */
  function GoesToHot(book: AddressBook, outs: seq<Outgoing>): seq<bool> {
    seq(|outs|, i requires 0 <= i < |outs| =>
      outs[i].dest.Some? && outs[i].dest.value in book && book[outs[i].dest.value] == TonHot)
  }

  lemma {:induction false} SentExact(book: AddressBook, outs: seq<Outgoing>)
    ensures var at := Trues(GoesToHot(book, outs));
      |at| == |Sent(book, outs)| && forall k :: 0 <= k < |at| ==> Sent(book, outs)[k] == outs[at[k]]
    decreases |outs|
  {
    if outs != [] {
      var n := |outs| - 1;
      SentExact(book, outs[..n]);
      assert GoesToHot(book, outs)[..n] == GoesToHot(book, outs[..n]);
    }
  }

  /** A position of a message: its transaction and its place there. */
  datatype Place = Place(tx: nat, out: nat)

  predicate Follows(p: Place, q: Place) { p.tx < q.tx || (p.tx == q.tx && p.out < q.out) }

  predicate IsPlace(txs: seq<Tx>, p: Place) { p.tx < |txs| && p.out < |txs[p.tx].outs| }

  /** Places in order, each once. */
  predicate PlacesInTurn(at: seq<Place>, txs: seq<Tx>) {
    && (forall k :: 0 <= k < |at| ==> IsPlace(txs, at[k]))
    && forall k, l :: 0 <= k < l < |at| ==> Follows(at[k], at[l])
  }

  /** The message at a place goes to the hot wallet, in a successful transaction that an external message started. */
  predicate LeavesAt(book: AddressBook, txs: seq<Tx>, p: Place)
    requires IsPlace(txs, p)
  {
    var tx, o := txs[p.tx], txs[p.tx].outs[p.out];
    && tx.success && tx.input.ExternalIn?
    && o.dest.Some? && o.dest.value in book && book[o.dest.value] == TonHot
  }

  predicate DepartureAt(ds: seq<Outgoing>, k: nat, txs: seq<Tx>, p: Place) {
    k < |ds| && IsPlace(txs, p) && ds[k] == txs[p.tx].outs[p.out]
  }

  /** The departures are, in order, exactly these messages ... */
  lemma {:induction false} DeparturesExact(book: AddressBook, txs: seq<Tx>) returns (at: seq<Place>)
    ensures PlacesInTurn(at, txs) && |at| == |Departures(book, txs)|
    ensures forall p :: IsPlace(txs, p) ==> (p in at <==> LeavesAt(book, txs, p))
    ensures forall k: nat :: k < |at| ==> DepartureAt(Departures(book, txs), k, txs, at[k])
    decreases |txs|
  {
    hide DeparturesOf, LeavesAt, PlacesInTurn;
    if txs == [] {
      at := [];
      assert PlacesInTurn(at, txs) by { NoPlaces(txs); }
    } else {
      var n := |txs| - 1;
      var before := DeparturesExact(book, txs[..n]);
      var more := LastDepartures(book, txs);
      at := before + more;
      JoinPlaces(txs, before, more);
      var ds, last := Departures(book, txs[..n]), DeparturesOf(book, txs[n]);
      assert Departures(book, txs) == ds + last;
      forall k: nat | k < |at| ensures DepartureAt(ds + last, k, txs, at[k]) {
        if k < |before| { assert DepartureAt(ds, k, txs[..n], before[k]); }
      }
      forall p | IsPlace(txs, p) ensures p in at <==> LeavesAt(book, txs, p) { PlaceIn(book, txs, before, more, p); }
    }
  }

  lemma NoPlaces(txs: seq<Tx>)
    ensures PlacesInTurn([], txs)
  {}

  lemma JoinPlaces(txs: seq<Tx>, before: seq<Place>, more: seq<Place>)
    requires txs != [] && PlacesInTurn(before, txs[..|txs| - 1]) && PlacesInTurn(more, txs)
    requires forall p :: p in more ==> p.tx == |txs| - 1
    ensures PlacesInTurn(before + more, txs)
    ensures forall p :: p in before ==> p.tx < |txs| - 1
    ensures forall k :: 0 <= k < |more| ==> IsPlace(txs, more[k]) && more[k].tx == |txs| - 1
  {
    var n, at := |txs| - 1, before + more;
    forall k | 0 <= k < |at| ensures IsPlace(txs, at[k]) && (k >= |before| ==> at[k].tx == n) {
      if k < |before| { assert IsPlace(txs[..n], before[k]); } else { assert more[k - |before|] in more; }
    }
  }

  lemma PlaceIn(book: AddressBook, txs: seq<Tx>, before: seq<Place>, more: seq<Place>, p: Place)
    requires txs != [] && IsPlace(txs, p)
    requires (forall q :: q in before ==> q.tx < |txs| - 1) && forall q :: q in more ==> q.tx == |txs| - 1
    requires forall q :: IsPlace(txs[..|txs| - 1], q) ==> (q in before <==> LeavesAt(book, txs[..|txs| - 1], q))
    requires forall q :: IsPlace(txs, q) && q.tx == |txs| - 1 ==> (q in more <==> LeavesAt(book, txs, q))
    ensures p in before + more <==> LeavesAt(book, txs, p)
  {
    hide LeavesAt;
    if p.tx < |txs| - 1 { SameLeaves(book, txs, |txs| - 1, p); }
  }

  lemma SameLeaves(book: AddressBook, txs: seq<Tx>, n: nat, p: Place)
    requires n <= |txs| && IsPlace(txs[..n], p)
    ensures IsPlace(txs, p) && LeavesAt(book, txs, p) == LeavesAt(book, txs[..n], p)
  {}

  lemma LastDepartures(book: AddressBook, txs: seq<Tx>) returns (at: seq<Place>)
    requires txs != []
    ensures PlacesInTurn(at, txs) && forall p :: p in at ==> p.tx == |txs| - 1
    ensures forall p :: IsPlace(txs, p) && p.tx == |txs| - 1 ==> (p in at <==> LeavesAt(book, txs, p))
    ensures |at| == |DeparturesOf(book, txs[|txs| - 1])|
    ensures forall k :: 0 <= k < |at| ==>
      DeparturesOf(book, txs[|txs| - 1])[k] == txs[|txs| - 1].outs[at[k].out]
  {
    hide Sent;
    var n := |txs| - 1;
    SentExact(book, txs[n].outs);
    var outs := Trues(GoesToHot(book, txs[n].outs));
    var more := if txs[n].success && txs[n].input.ExternalIn? then outs else [];
    at := seq(|more|, k requires 0 <= k < |more| => Place(n, more[k]));
    forall p | IsPlace(txs, p) && p.tx == n ensures p in at <==> p.out in more {
      if p.out in more {
        var k :| 0 <= k < |more| && more[k] == p.out;
        assert at[k] == p;
      }
    }
  }

  /** ... each read as a confirmation and a withdrawal with its own times, amount and comment. */
  lemma DeparturesRead(a: Address, outs: seq<Outgoing>)
    ensures |Confirmations(a, outs)| == |Transfers(a, outs)| == |outs|
    ensures forall k :: 0 <= k < |outs| ==>
      var o := outs[k];
      && Confirmations(a, outs)[k] == SendingConfirmation(o.lt, a, LoadComment(Some(o.body)))
      && Transfers(a, outs)[k] == InternalWithdrawal(o.lt, o.at, a, o.value, LoadComment(Some(o.body)), false)
  {}

  function AmountOf(es: seq<ExternalIncome>): int {
    if es == [] then 0 else AmountOf(es[..|es| - 1]) + es[|es| - 1].amount
  }

  /** A message from a sender that the book does not know arrived. */
  predicate FromStranger(book: AddressBook, tx: Tx) {
    tx.success && tx.input.InternalIn? && !(tx.input.msg.src.Some? && tx.input.msg.src.value in book)
  }

  /** The income with the message's times, sender, amount and comment. */
  function IncomeOf(a: Address, m: Incoming): ExternalIncome {
    ExternalIncome(m.lt, m.at, m.src, a, m.value, LoadComment(Some(m.body)))
  }

  /** What strangers sent. */
  function StrangersSent(book: AddressBook, txs: seq<Tx>): nat {
    if txs == [] then 0
    else
      var tx := txs[|txs| - 1];
      StrangersSent(book, txs[..|txs| - 1]) + if FromStranger(book, tx) then tx.input.msg.value else 0
  }

  /** The income at `k` is of the transaction at `i`. */
  predicate IncomeAt(es: seq<ExternalIncome>, k: nat, a: Address, tx: Tx) {
    k < |es| && tx.input.InternalIn? && es[k] == IncomeOf(a, tx.input.msg)
  }

  function Strangers(book: AddressBook, txs: seq<Tx>): seq<bool> {
    seq(|txs|, i requires 0 <= i < |txs| => FromStranger(book, txs[i]))
  }

  /** The incomes recorded of a deposit are, in order, one for each message from a stranger, and none else ... */
  lemma {:induction false} PaymentsExact(book: AddressBook, a: Address, txs: seq<Tx>)
    ensures var at := Trues(Strangers(book, txs));
      && |at| == |Payments(book, a, txs)|
      && forall k: nat :: k < |at| ==> IncomeAt(Payments(book, a, txs), k, a, txs[at[k]])
    decreases |txs|
  {
    hide PaymentsOf, FromStranger, IncomeOf;
    if txs != [] {
      var n := |txs| - 1;
      PaymentsExact(book, a, txs[..n]);
      var before := Trues(Strangers(book, txs[..n]));
      var es, e := Payments(book, a, txs[..n]), PaymentsOf(book, a, txs[n]);
      PaymentRead(book, a, txs[n]);
      assert Strangers(book, txs)[..n] == Strangers(book, txs[..n]);
      var at := Trues(Strangers(book, txs));
      forall k: nat | k < |at| ensures IncomeAt(es + e, k, a, txs[at[k]]) {
        if k < |before| { assert IncomeAt(es, k, a, txs[..n][before[k]]); }
      }
    }
  }

  lemma PaymentRead(book: AddressBook, a: Address, tx: Tx)
    ensures FromStranger(book, tx) ==> tx.input.InternalIn?
    ensures FromStranger(book, tx) ==> PaymentsOf(book, a, tx) == [IncomeOf(a, tx.input.msg)]
    ensures FromStranger(book, tx) ==> IncomeOf(a, tx.input.msg).amount == tx.input.msg.value
    ensures !FromStranger(book, tx) ==> PaymentsOf(book, a, tx) == []
  {
    hide LoadComment;
  }

  /** ... and together they are what strangers sent. */
  lemma {:induction false} PaymentsAmount(book: AddressBook, a: Address, txs: seq<Tx>)
    ensures AmountOf(Payments(book, a, txs)) == StrangersSent(book, txs)
    decreases |txs|
  {
    hide PaymentsOf, FromStranger, IncomeOf;
    if txs != [] {
      var n := |txs| - 1;
      PaymentsAmount(book, a, txs[..n]);
      var es, e := Payments(book, a, txs[..n]), PaymentsOf(book, a, txs[n]);
      PaymentRead(book, a, txs[n]);
      if FromStranger(book, txs[n]) { assert (es + e)[..|es|] == es; } else { assert es + e == es; }
    }
  }

  // ---- The hot wallet ----

  const EXCESSES_OP: nat := 0xd53276db

  /** The query id of an excess message. */
  function DecodeExcesses(body: Cell): Option<nat> {
    var op :- LoadUint(body, 32);
    if op.value != EXCESSES_OP then None
    else
      var queryId :- LoadUint(op.rest, 64);
      Some(queryId.value)
  }

  /** A body is an excess of a query exactly when it begins with the opcode and the query id. */
  lemma {:induction false} ExcessExact(body: Cell, q: nat)
    requires q < Pow2(64)
    ensures DecodeExcesses(body) == Some(q) <==>
      |body.bits| >= 96 && body.bits[..96] == UintBits(0xd53276db, 32) + UintBits(q, 64)
  {
    hide UintBits, BitsUint, Pow2;
    Pow2Values();
    UintRoundTrip(EXCESSES_OP, 32);
    UintRoundTrip(q, 64);
    if |body.bits| >= 96 {
      var head, rest := body.bits[..32], body.bits[32..];
      assert body.bits[..96] == head + rest[..64];
      BitsRoundTrip(head);
      BitsRoundTrip(rest[..64]);
      assert (UintBits(EXCESSES_OP, 32) + UintBits(q, 64))[..32] == UintBits(EXCESSES_OP, 32);
      assert (UintBits(EXCESSES_OP, 32) + UintBits(q, 64))[32..] == UintBits(q, 64);
      assert (head + rest[..64])[..32] == head && (head + rest[..64])[32..] == rest[..64];
    }
  }

  /** What arrives: an excess from a stranger, TON from a deposit, or word of jettons from a deposit's owner. */
  function HotIncoming(book: AddressBook, m: Incoming): Result<Events, ScanError> {
    if m.src.None? then Err(BadAddress)
    else if m.src.value !in book then
      match DecodeExcesses(m.body)
      case None => Ok(NO_EVENTS)
      case Some(q) => Ok(NO_EVENTS.(confirmations := [WithdrawalConfirmation(q)]))
    else if book[m.src.value] == TonDeposit then
      Ok(NO_EVENTS.(intIncomes := [InternalIncome(m.lt, m.at, m.src.value, m.value, CommentOf(m.body))]))
    else if book[m.src.value] == JettonHot then
      match DecodeNotification(m.body)
      case None => Ok(NO_EVENTS)
      case Some(n) =>
        if n.sender.None? then Err(BadAddress)
        else if n.sender.value !in book || book[n.sender.value] != JettonOwner then Ok(NO_EVENTS)
        else Ok(NO_EVENTS.(intIncomes := [InternalIncome(m.lt, m.at, n.sender.value, n.amount, n.comment)]))
    else Ok(NO_EVENTS)
  }

  /** Word from a jetton wallet of ours that a deposit's owner sent jettons. */
  predicate NotifiesOfDeposit(book: AddressBook, body: Cell) {
    match DecodeNotification(body)
    case None => false
    case Some(n) => n.sender.Some? && n.sender.value in book && book[n.sender.value] == JettonOwner
  }

  /** TON or jettons from a deposit. */
  predicate FromDeposit(book: AddressBook, m: Incoming) {
    && m.src.Some? && m.src.value in book
    && (book[m.src.value] == TonDeposit || (book[m.src.value] == JettonHot && NotifiesOfDeposit(book, m.body)))
  }

  function IncomeFrom(book: AddressBook, m: Incoming): InternalIncome
    requires FromDeposit(book, m)
  {
    if book[m.src.value] == TonDeposit then
      InternalIncome(m.lt, m.at, m.src.value, m.value, LoadComment(Some(m.body)))
    else
      var n := DecodeNotification(m.body).value;
      InternalIncome(m.lt, m.at, n.sender.value, n.amount, n.comment)
  }

  /** What arrives from a deposit is read as one income, and from any other known sender nothing is; only an excess from
    * a stranger confirms anything; an error is a sender, of the message or in the notification, without an address. */
  lemma HotExact(book: AddressBook, m: Incoming)
    ensures FromDeposit(book, m) ==> HotIncoming(book, m) == Ok(NO_EVENTS.(intIncomes := [IncomeFrom(book, m)]))
    ensures m.src.Some? && m.src.value in book && !FromDeposit(book, m) ==>
      if book[m.src.value] == JettonHot && DecodeNotification(m.body).Some?
        && DecodeNotification(m.body).value.sender == None then HotIncoming(book, m) == Err(BadAddress)
      else HotIncoming(book, m) == Ok(NO_EVENTS)
    ensures m.src.Some? && m.src.value !in book ==>
      HotIncoming(book, m) == Ok(NO_EVENTS.(confirmations :=
        if DecodeExcesses(m.body).Some? then [WithdrawalConfirmation(DecodeExcesses(m.body).value)] else []))
    ensures m.src.None? ==> HotIncoming(book, m) == Err(BadAddress)
  {
    hide DecodeNotification, DecodeExcesses, LoadComment;
  }
}
