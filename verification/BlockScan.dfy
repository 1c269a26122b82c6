/** From transactions to the scan step of the internal runs: what the scanner reads in the wallets of a block is
  * exactly the block's part of the chain's record. */
module BlockScan {
  import opened Base
  import opened BlockEffects
  import opened Codec
  import opened InternalRuns
  import opened InternalScan
  import opened InternalTheorems
  import opened InternalSafety
  import opened Ledger
  import opened Uuids
  import J = JettonIncome
  import R = Reconciliation
  import T = Batch
  import W = WalletScan

  // ---- Pieces of a block ----

  /** A share of the chain's record of a block. */
  datatype Share = Share(sent: set<Uuid>, left: set<Departure>, strange: set<nat>, arrived: set<Departure>) {
    function Plus(h: Share): Share {
      Share(sent + h.sent, left + h.left, strange + h.strange, arrived + h.arrived)
    }
  }

  const NO_SHARE := Share({}, {}, {}, {})

  /** The events of some of a block's transactions, where each withdrawal comes from, and their share of the record. */
  datatype Piece = Piece(events: Events, origin: seq<Origin>, share: Share) {
    function Plus(p: Piece): Piece { Piece(events.Append(p.events), origin + p.origin, share.Plus(p.share)) }
  }

  predicate OfShare(h: Share, o: Origin) {
    match o case Ours(k) => k in h.left case Strangers(id) => id in h.strange
  }

  ghost predicate SendsShare(p: Piece) {
    && (forall c :: c in p.events.sendings ==> ParseUuid(c.memo).Some? && ParseUuid(c.memo).value in p.share.sent)
    && forall m :: m in p.share.sent ==> SendsIn(p.events.sendings, m)
  }

  ghost predicate WithdrawsShare(s: Sys, n: nat, p: Piece) {
    var ws := p.events.intWithdrawals;
    && |p.origin| == |ws| && OrderedOrigins(p.origin) && GainsInOrder(ws)
    && (forall i :: 0 <= i < |ws| ==> ComesFrom(s, n, ws[i], p.origin[i]) && OfShare(p.share, p.origin[i]))
    && (forall k :: k in p.share.left ==> Ours(k) in p.origin)
    && forall id :: id in p.share.strange ==> Strangers(id) in p.origin
  }

  ghost predicate ReceivesShare(s: Sys, n: nat, p: Piece) {
    && DistinctIncomes(p.events.intIncomes)
    && (forall i :: i in p.events.intIncomes ==> exists k :: k in p.share.arrived && IncomeOf(s, n, k, i))
    && forall k :: k in p.share.arrived ==> exists i :: i in p.events.intIncomes && IncomeOf(s, n, k, i)
  }

  /** The events are exactly the share. */
  ghost predicate Covers(s: Sys, n: nat, p: Piece) {
    SendsShare(p) && WithdrawsShare(s, n, p) && ReceivesShare(s, n, p)
  }

  /** Two pieces in order: no record belongs to both, and a memo's departures keep their order. */
  predicate Before(a: Share, b: Share) {
    && (forall k, l :: k in a.left && l in b.left && k.memo == l.memo ==> k.lt < l.lt)
    && a.strange !! b.strange && a.arrived !! b.arrived
  }

  lemma JoinSends(p: Piece, q: Piece)
    requires SendsShare(p) && SendsShare(q)
    ensures SendsShare(p.Plus(q))
  {
    var es := p.events.sendings + q.events.sendings;
    forall m | m in p.share.sent + q.share.sent ensures SendsIn(es, m) {
      var e :| (e in p.events.sendings || e in q.events.sendings) && ParseUuid(e.memo) == Some(m);
      assert e in es;
    }
  }

  lemma JoinWithdraws(s: Sys, n: nat, p: Piece, q: Piece)
    requires WithdrawsShare(s, n, p) && WithdrawsShare(s, n, q) && Before(p.share, q.share)
    ensures WithdrawsShare(s, n, p.Plus(q))
  {
    hide ComesFrom, OfShare, Before, OrderedOrigins, GainsInOrder;
    var ps, qs := p.events.intWithdrawals, q.events.intWithdrawals;
    var ws, origin := ps + qs, p.origin + q.origin;
    forall i | 0 <= i < |ws| ensures ComesFrom(s, n, ws[i], origin[i]) && OfShare(p.share.Plus(q.share), origin[i]) {
      if i < |ps| { InJoin(p.share, q.share, p.origin[i]); } else { InJoin(p.share, q.share, q.origin[i - |ps|]); }
    }
    JoinOrigins(s, n, p, q);
    JoinGains(s, n, p, q);
  }

  lemma InJoin(h: Share, g: Share, o: Origin)
    ensures OfShare(h.Plus(g), o) <==> OfShare(h, o) || OfShare(g, o)
  {}

  lemma JoinOrigins(s: Sys, n: nat, p: Piece, q: Piece)
    requires WithdrawsShare(s, n, p) && WithdrawsShare(s, n, q) && Before(p.share, q.share)
    ensures OrderedOrigins(p.origin + q.origin)
  {
    hide ComesFrom, GainsInOrder;
    var k, origin := |p.origin|, p.origin + q.origin;
    forall i, j | 0 <= i < j < |origin| ensures origin[i] != origin[j] {
      if i < k <= j { assert OfShare(p.share, p.origin[i]) && OfShare(q.share, q.origin[j - k]); }
    }
  }

  lemma JoinGains(s: Sys, n: nat, p: Piece, q: Piece)
    requires WithdrawsShare(s, n, p) && WithdrawsShare(s, n, q) && Before(p.share, q.share)
    ensures GainsInOrder(p.events.intWithdrawals + q.events.intWithdrawals)
  {
    hide ParseUuid, OrderedOrigins;
    var ps, qs := p.events.intWithdrawals, q.events.intWithdrawals;
    var ws := ps + qs;
    forall i, j | 0 <= i < j < |ws| && ParseUuid(ws[i].memo) == ParseUuid(ws[j].memo) && !ws[i].isFailed
                  && !ws[j].isFailed
      ensures ws[i].lt < ws[j].lt {
      if i < |ps| <= j {
        assert ComesFrom(s, n, ps[i], p.origin[i]) && ComesFrom(s, n, qs[j - |ps|], q.origin[j - |ps|]);
        assert OfShare(p.share, p.origin[i]) && OfShare(q.share, q.origin[j - |ps|]);
      }
    }
  }

  lemma JoinReceives(s: Sys, n: nat, p: Piece, q: Piece)
    requires ChainInv(s) && ReceivesShare(s, n, p) && ReceivesShare(s, n, q) && Before(p.share, q.share)
    ensures ReceivesShare(s, n, p.Plus(q))
  {
    hide ChainInv, KeyOfIncome, IncomeOf;
    var ps, qs := p.events.intIncomes, q.events.intIncomes;
    var ins := ps + qs;
    forall i, j | 0 <= i < j < |ins| ensures KeyOfIncome(ins[i]) != KeyOfIncome(ins[j]) {
      if i < |ps| <= j {
        assert ins[i] == ps[i] && ins[j] == qs[j - |ps|];
        DifferentIncomes(s, n, p, q, ps[i], qs[j - |ps|]);
      }
    }
    forall i | i in ins ensures exists k :: k in p.share.arrived + q.share.arrived && IncomeOf(s, n, k, i) {
      var k :| (k in p.share.arrived || k in q.share.arrived) && IncomeOf(s, n, k, i);
    }
    forall k | k in p.share.arrived + q.share.arrived ensures exists i :: i in ins && IncomeOf(s, n, k, i) {
      var i :| (i in ps || i in qs) && IncomeOf(s, n, k, i);
      assert i in ins;
    }
  }

  lemma DifferentKeys(s: Sys, n: nat, k: Departure, l: Departure, i: InternalIncome, j: InternalIncome)
    requires ChainInv(s) && IncomeOf(s, n, k, i) && IncomeOf(s, n, l, j) && k != l
    ensures KeyOfIncome(i) != KeyOfIncome(j)
  {
    hide ChainInv;
    if k.memo == l.memo && s.chain.arrivals[k].lt == s.chain.arrivals[l].lt { OneArrival(s, k, l); }
  }

  lemma DifferentIncomes(s: Sys, n: nat, p: Piece, q: Piece, i: InternalIncome, j: InternalIncome)
    requires ChainInv(s) && ReceivesShare(s, n, p) && ReceivesShare(s, n, q) && Before(p.share, q.share)
    requires i in p.events.intIncomes && j in q.events.intIncomes
    ensures KeyOfIncome(i) != KeyOfIncome(j)
  {
    hide ChainInv, IncomeOf, DistinctIncomes, KeyOfIncome;
    var k :| k in p.share.arrived && IncomeOf(s, n, k, i);
    var l :| l in q.share.arrived && IncomeOf(s, n, l, j);
    DifferentKeys(s, n, k, l, i, j);
  }

  lemma Join(s: Sys, n: nat, p: Piece, q: Piece)
    requires ChainInv(s) && Covers(s, n, p) && Covers(s, n, q) && Before(p.share, q.share)
    ensures Covers(s, n, p.Plus(q))
  {
    hide ChainInv, Before, SendsShare, WithdrawsShare, ReceivesShare;
    JoinSends(p, q);
    JoinWithdraws(s, n, p, q);
    JoinReceives(s, n, p, q);
  }

  // ---- Jetton deposits ----

  /** Where the event of a jetton wallet's transaction comes from: the deposit's owner, whose request is one of our
    * departures, or a stranger, whose request the wallet refuses (TEP-74). */
  predicate JettonRecord(s: Sys, n: nat, d: J.Deposit, tx: J.Tx, o: Option<Origin>) {
    if J.NotRequest(tx) then o == None
    else
      var m, t := tx.input.value, DecodeTransfer(tx.input.value.body).value;
      match o
      case None => false
      case Some(Ours(k)) =>
        && d.owner.Some? && m.src == d.owner && ParseUuid(t.comment) == Some(k.memo) && k.lt == m.lt
        && k.memo in s.msgs && !s.msgs[k.memo].ton && k in s.chain.leaves
             && s.chain.leaves[k] == Leave(n, t.amount, tx.success)
        && t.dest.Some? && t.dest.value in d.book && d.book[t.dest.value] == TonHot
      case Some(Strangers(id)) =>
        && m.src != d.owner && !tx.success
        && id in s.chain.forged && s.chain.forged[id] == Forgery(n, t.comment, m.lt, t.amount)
  }

  function OriginOf(o: Option<Origin>): seq<Origin> { if o.Some? then [o.value] else [] }

  function Origins(os: seq<Option<Origin>>): seq<Origin> {
    if os == [] then [] else Origins(os[..|os| - 1]) + OriginOf(os[|os| - 1])
  }

  function ShareOf(o: Option<Origin>): Share {
    match o
    case None => NO_SHARE
    case Some(Ours(k)) => Share({}, {k}, {}, {})
    case Some(Strangers(id)) => Share({}, {}, {id}, {})
  }

  function SharesOf(os: seq<Option<Origin>>): Share {
    if os == [] then NO_SHARE else SharesOf(os[..|os| - 1]).Plus(ShareOf(os[|os| - 1]))
  }

  /** Each transaction on record, no two as the same. */
  ghost predicate JettonOnRecord(s: Sys, n: nat, d: J.Deposit, txs: seq<J.Tx>, os: seq<Option<Origin>>) {
    && |os| == |txs| && J.AllRead(d, txs)
    && (forall i :: 0 <= i < |txs| ==> JettonRecord(s, n, d, txs[i], os[i]))
    && forall i, j :: 0 <= i < j < |os| && os[i].Some? ==> os[i] != os[j]
  }

  lemma OneRequest(s: Sys, n: nat, d: J.Deposit, tx: J.Tx, o: Option<Origin>)
    requires J.TxRead(d, tx) && JettonRecord(s, n, d, tx, o)
    ensures Covers(s, n, Piece(NO_EVENTS.(intWithdrawals := J.WithdrawalOf(d, tx)), OriginOf(o), ShareOf(o)))
  {
    hide DecodeTransfer, J.OutsRead;
  }

  lemma {:induction false} InShares(os: seq<Option<Origin>>, o: Origin)
    ensures OfShare(SharesOf(os), o) <==> Some(o) in os
    ensures SharesOf(os).sent == {} && SharesOf(os).arrived == {}
    decreases |os|
  {
    if os != [] { InShares(os[..|os| - 1], o); }
  }

  lemma OneDeparture(s: Sys, n: nat, d: J.Deposit, txs: seq<J.Tx>, os: seq<Option<Origin>>, i: nat, j: nat)
    requires ChainInv(s) && JettonOnRecord(s, n, d, txs, os) && i < j < |os|
    requires os[i].Some? && os[i].value.Ours? && os[j].Some? && os[j].value.Ours?
    ensures os[i].value.departure.memo != os[j].value.departure.memo
  {
    hide J.AllRead, DecodeTransfer, OrderOk, LeaveOk, ArrivalOk;
    assert JettonRecord(s, n, d, txs[i], os[i]) && JettonRecord(s, n, d, txs[j], os[j]);
    assert os[i] != os[j];
  }

  lemma RequestsApart(s: Sys, n: nat, d: J.Deposit, txs: seq<J.Tx>, os: seq<Option<Origin>>)
    requires ChainInv(s) && JettonOnRecord(s, n, d, txs, os) && os != []
    ensures Before(SharesOf(os[..|os| - 1]), ShareOf(os[|os| - 1]))
  {
    hide J.AllRead, DecodeTransfer, SharesOf, ChainInv, JettonRecord;
    var last := |os| - 1;
    var h := SharesOf(os[..last]);
    InShares(os[..last], Strangers(0));
    if os[last].Some? {
      forall k | k in h.left && os[last].value.Ours? ensures k.memo != os[last].value.departure.memo {
        InShares(os[..last], Ours(k));
        var i :| 0 <= i < last && os[..last][i] == Some(Ours(k));
        OneDeparture(s, n, d, txs, os, i, last);
      }
      forall id | id in h.strange ensures os[last].value != Strangers(id) {
        InShares(os[..last], Strangers(id));
        var i :| 0 <= i < last && os[..last][i] == Some(Strangers(id));
      }
    }
  }

  /** What the scanner reads in a jetton deposit's transactions is their part of the record. */
  lemma {:induction false} JettonCovers(s: Sys, n: nat, d: J.Deposit, txs: seq<J.Tx>, os: seq<Option<Origin>>,
                                        e: Events)
    requires ChainInv(s) && JettonOnRecord(s, n, d, txs, os)
    requires e == NO_EVENTS.(extIncomes := e.extIncomes, intWithdrawals := J.Withdrawals(d, txs))
    ensures Covers(s, n, Piece(e, Origins(os), SharesOf(os)))
    decreases |txs|
  {
    hide ChainInv, JettonRecord, J.TxRead, J.WithdrawalOf, SendsShare, WithdrawsShare, ReceivesShare, Before;
    if txs == [] {
      NothingCovered(s, n, e);
    } else {
      var last := |txs| - 1;
      var before := NO_EVENTS.(intWithdrawals := J.Withdrawals(d, txs[..last]));
      JettonCovers(s, n, d, txs[..last], os[..last], before);
      OneRequest(s, n, d, txs[last], os[last]);
      RequestsApart(s, n, d, txs, os);
      var p := Piece(before, Origins(os[..last]), SharesOf(os[..last]));
      var q := Piece(NO_EVENTS.(intWithdrawals := J.WithdrawalOf(d, txs[last])), OriginOf(os[last]), ShareOf(os[last]));
      Join(s, n, p, q);
      SameInner(s, n, p.Plus(q), Piece(e, Origins(os), SharesOf(os)));
    }
  }

  lemma NothingCovered(s: Sys, n: nat, e: Events)
    requires e.intWithdrawals == [] && e.intIncomes == [] && e.sendings == []
    ensures Covers(s, n, Piece(e, [], NO_SHARE))
  {}

  lemma SameInner(s: Sys, n: nat, p: Piece, q: Piece)
    requires Covers(s, n, p) && q.origin == p.origin && q.share == p.share
    requires q.events.intWithdrawals == p.events.intWithdrawals && q.events.intIncomes == p.events.intIncomes
    requires q.events.sendings == p.events.sendings
    ensures Covers(s, n, q)
  {}

  // ---- Batches, TON deposits, arrivals ----

  /** The memos of a batch's internal tasks whose messages went out. */
  function EmittedMemos(b: T.Withdrawals, at: seq<nat>): set<Uuid> {
    set k | 0 <= k < |b.internals| && |b.service| + k in at :: b.internals[k].memo
  }

  /** The confirmations of an executed batch are its share of the sendings. */
  lemma BatchCovers(s: Sys, n: nat, w: T.World, b: T.Withdrawals, at: seq<nat>, e: Events)
    requires R.InternalsConfirmed(w, b, at, e.sendings) && e.intWithdrawals == [] && e.intIncomes == []
    ensures Covers(s, n, Piece(e, [], NO_SHARE.(sent := EmittedMemos(b, at))))
  {
    hide ParseUuid, PrintUuid;
    forall m | m in EmittedMemos(b, at) ensures SendsIn(e.sendings, m) {
      UuidRoundTrip(m);
      var k :| 0 <= k < |b.internals| && |b.service| + k in at && b.internals[k].memo == m;
      assert R.Confirmed(w, b, k, e.sendings);
      var c :| c in e.sendings && R.ConfirmsTask(w, b, k, c);
    }
    forall c | c in e.sendings
      ensures ParseUuid(c.memo).Some? && ParseUuid(c.memo).value in EmittedMemos(b, at) {
      var k: nat :| R.ConfirmsTask(w, b, k, c) && |b.service| + k in at;
      UuidRoundTrip(b.internals[k].memo);
    }
  }

  /** Each message of a TON deposit to the hot wallet is a departure; logical times grow. */
  predicate TonOnRecord(s: Sys, n: nat, outs: seq<W.Outgoing>, ks: seq<Departure>) {
    && |ks| == |outs| && (forall i, j :: 0 <= i < j < |outs| ==> outs[i].lt < outs[j].lt)
    && forall i :: 0 <= i < |outs| ==> TonRecord(s, n, outs[i], ks[i])
  }

  predicate TonRecord(s: Sys, n: nat, o: W.Outgoing, k: Departure) {
    && ParseUuid(W.CommentOf(o.body)) == Some(k.memo) && k.lt == o.lt
    && k in s.chain.leaves && s.chain.leaves[k] == Leave(n, o.value, true)
  }

  function TonPiece(ks: seq<Departure>, e: Events): Piece {
    Piece(e, seq(|ks|, i requires 0 <= i < |ks| => Ours(ks[i])),
          NO_SHARE.(sent := set k | k in ks :: k.memo, left := set k | k in ks))
  }

  /** What the scanner reads in a TON deposit's transactions is their part of the record. */
  lemma TonCovers(s: Sys, n: nat, a: Address, outs: seq<W.Outgoing>, ks: seq<Departure>, e: Events)
    requires TonOnRecord(s, n, outs, ks)
    requires e.sendings == W.Confirmations(a, outs) && e.intWithdrawals == W.Transfers(a, outs) && e.intIncomes == []
    ensures Covers(s, n, TonPiece(ks, e))
  {
    hide W.CommentOf, ParseUuid;
    var p := TonPiece(ks, e);
    forall m | m in p.share.sent ensures SendsIn(e.sendings, m) {
      var k :| k in ks && k.memo == m;
      var i :| 0 <= i < |ks| && ks[i] == k;
      assert TonRecord(s, n, outs[i], ks[i]);
      assert e.sendings[i] in e.sendings;
    }
    forall c | c in e.sendings ensures ParseUuid(c.memo).Some? && ParseUuid(c.memo).value in p.share.sent {
      var i :| 0 <= i < |outs| && e.sendings[i] == c;
      assert TonRecord(s, n, outs[i], ks[i]) && ks[i] in ks;
    }
    forall k | k in p.share.left ensures Ours(k) in p.origin {
      var i :| 0 <= i < |ks| && ks[i] == k;
      assert p.origin[i] == Ours(k);
    }
    forall i | 0 <= i < |outs|
      ensures ComesFrom(s, n, e.intWithdrawals[i], p.origin[i]) && OfShare(p.share, p.origin[i]) {
      assert TonRecord(s, n, outs[i], ks[i]) && ks[i] in ks;
    }
  }

  /** A message from a deposit is an arrival: of its TON, or of jettons as its owner's transfer is notified. */
  predicate ArrivalOnRecord(s: Sys, n: nat, book: AddressBook, m: W.Incoming, k: Departure) {
    && k in s.chain.arrivals && s.chain.arrivals[k] == Arrival(n, m.lt) && k in s.chain.leaves
    && m.src.Some? && m.src.value in book
    && if book[m.src.value] == TonDeposit then
         ParseUuid(W.CommentOf(m.body)) == Some(k.memo) && s.chain.leaves[k].amount == m.value
       else
         && book[m.src.value] == JettonHot && DecodeNotification(m.body).Some?
         && var t := DecodeNotification(m.body).value;
           && t.sender.Some? && t.sender.value in book && book[t.sender.value] == JettonOwner
           && ParseUuid(t.comment) == Some(k.memo) && s.chain.leaves[k].amount == t.amount
  }

  /** A message to the hot wallet is an arrival on record, or not from a deposit. */
  predicate HotOnRecord(s: Sys, n: nat, book: AddressBook, m: W.Incoming, k: Option<Departure>) {
    match k
    case Some(k) => ArrivalOnRecord(s, n, book, m, k)
    case None => !W.FromDeposit(book, m)
  }

  function ArrivalShare(k: Option<Departure>): Share {
    NO_SHARE.(arrived := match k case Some(k) => {k} case None => {})
  }

  /** Every arrival is read, as one income, and what the scanner reads in a message to the hot wallet is its part of the
    * record. */
  lemma HotCovers(s: Sys, n: nat, book: AddressBook, m: W.Incoming, k: Option<Departure>, e: Events)
    requires W.HotIncoming(book, m) == Ok(e) && HotOnRecord(s, n, book, m, k)
    ensures |e.intIncomes| == |ArrivalShare(k).arrived|
    ensures Covers(s, n, Piece(e, [], ArrivalShare(k)))
  {
    hide DecodeNotification, W.DecodeExcesses, W.HotIncoming;
    W.HotExact(book, m);
    if k.Some? { assert e.intIncomes[0] in e.intIncomes && IncomeOf(s, n, k.value, e.intIncomes[0]); }
  }

  // ---- A block ----

  /** The transactions of a block that yield internal events, with what the scanner reads in them. */
  datatype Part =
    | JettonPart(d: J.Deposit, jettonTxs: seq<J.Tx>, os: seq<Option<Origin>>)
    | BatchPart(w: T.World, b: T.Withdrawals, at: seq<nat>)
    | TonPart(book: AddressBook, a: Address, txs: seq<W.Tx>, ks: seq<Departure>)
    | HotPart(hotBook: AddressBook, m: W.Incoming, k: Option<Departure>)

  ghost predicate ReadAs(part: Part, e: Events) {
    match part
    case JettonPart(d, txs, _) => J.AllRead(d, txs)
      && e == NO_EVENTS.(extIncomes := e.extIncomes, intWithdrawals := J.Withdrawals(d, txs))
    case BatchPart(w, b, at) => R.InternalsConfirmed(w, b, at, e.sendings) && e.intWithdrawals == []
      && e.intIncomes == []
    case TonPart(book, a, txs, _) =>
      var outs := W.Departures(book, txs);
      e == NO_EVENTS.(extIncomes := W.Payments(book, a, txs), sendings := W.Confirmations(a, outs),
        intWithdrawals := W.Transfers(a, outs))
    case HotPart(book, m, _) => W.HotIncoming(book, m) == Ok(e)
  }

  /** The chain's record of a part. */
  ghost predicate OnRecord(s: Sys, n: nat, part: Part, e: Events) {
    match part
    case JettonPart(d, txs, os) => JettonOnRecord(s, n, d, txs, os)
    case BatchPart(_, _, _) => true
    case TonPart(book, _, txs, ks) => TonOnRecord(s, n, W.Departures(book, txs), ks)
    case HotPart(book, m, k) => HotOnRecord(s, n, book, m, k)
  }

  function PieceOf(part: Part, e: Events): Piece {
    match part
    case JettonPart(_, _, os) => Piece(e, Origins(os), SharesOf(os))
    case BatchPart(_, b, at) => Piece(e, [], NO_SHARE.(sent := EmittedMemos(b, at)))
    case TonPart(_, _, _, ks) => TonPiece(ks, e)
    case HotPart(_, _, k) => Piece(e, [], ArrivalShare(k))
  }

  lemma PartCovers(s: Sys, n: nat, part: Part, e: Events)
    requires ChainInv(s) && ReadAs(part, e) && OnRecord(s, n, part, e)
    ensures Covers(s, n, PieceOf(part, e))
  {
    hide ChainInv, Covers, TonOnRecord, JettonOnRecord, HotOnRecord, ArrivalShare, TonPiece, R.InternalsConfirmed;
    hide W.HotIncoming;
    match part
    case JettonPart(d, txs, os) => JettonCovers(s, n, d, txs, os, e);
    case BatchPart(w, b, at) => BatchCovers(s, n, w, b, at, e);
    case TonPart(book, a, txs, ks) => TonCovers(s, n, a, W.Departures(book, txs), ks, e);
    case HotPart(book, m, k) => HotCovers(s, n, book, m, k, e);
  }

  function Whole(ps: seq<Piece>): Piece {
    if ps == [] then Piece(NO_EVENTS, [], NO_SHARE) else Whole(ps[..|ps| - 1]).Plus(ps[|ps| - 1])
  }

  ghost predicate InOrder(ps: seq<Piece>) {
    forall i, j :: 0 <= i < j < |ps| ==> Before(ps[i].share, ps[j].share)
  }

  lemma {:induction false} BeforeLast(ps: seq<Piece>, h: Share)
    requires forall i :: 0 <= i < |ps| ==> Before(ps[i].share, h)
    ensures Before(Whole(ps).share, h)
    decreases |ps|
  {
    if ps != [] { BeforeLast(ps[..|ps| - 1], h); }
  }

  lemma {:induction false} WholeCovers(s: Sys, n: nat, ps: seq<Piece>)
    requires ChainInv(s) && InOrder(ps) && forall i :: 0 <= i < |ps| ==> Covers(s, n, ps[i])
    ensures Covers(s, n, Whole(ps))
    decreases |ps|
  {
    hide ChainInv, SendsShare, WithdrawsShare, ReceivesShare, Before;
    if ps == [] {
      NothingCovered(s, n, NO_EVENTS);
    } else {
      var last := |ps| - 1;
      WholeCovers(s, n, ps[..last]);
      BeforeLast(ps[..last], ps[last].share);
      Join(s, n, Whole(ps[..last]), ps[last]);
    }
  }

  /** The shares together are the block's whole record. */
  ghost predicate Complete(s: Sys, n: nat, h: Share) {
    && (forall m :: m in h.sent <==> SentIn(s, n, m))
    && (forall k :: k in s.chain.leaves && s.chain.leaves[k].block == n ==> k in h.left)
    && (forall id :: id in s.chain.forged && s.chain.forged[id].block == n ==> id in h.strange)
    && forall k :: k in s.chain.arrivals && s.chain.arrivals[k].block == n ==> k in h.arrived
  }

  /** The transactions of block `n`, account by account, with what the scanner reads in them: together the block's whole
    * record. */
  ghost predicate Scanned(s: Sys, n: nat, parts: seq<Part>, es: seq<Events>, ps: seq<Piece>) {
    && |parts| == |es| == |ps|
    && (forall i :: 0 <= i < |parts| ==>
         ReadAs(parts[i], es[i]) && OnRecord(s, n, parts[i], es[i]) && ps[i] == PieceOf(parts[i], es[i]))
    && InOrder(ps) && Complete(s, n, Whole(ps).share)
  }

  /** Whatever the scanner reads in the transactions of a block, account by account, is what the runs expect of its
    * scan: ours and the strangers' withdrawals, the confirmations and the incomes, each exactly once. */
  lemma {:induction false} BlockIsReconciled(s: Sys, n: nat, parts: seq<Part>, es: seq<Events>, ps: seq<Piece>)
    requires ChainInv(s) && Scanned(s, n, parts, es, ps)
    ensures Reconciled(s, n, Whole(ps).events, Whole(ps).origin)
  {
    hide ChainInv, ReadAs, OnRecord, PieceOf, Covers, Complete, Whole;
    forall i | 0 <= i < |ps| ensures Covers(s, n, ps[i]) { PartCovers(s, n, parts[i], es[i]); }
    WholeCovers(s, n, ps);
    CompleteCovers(s, n, Whole(ps));
  }

  /** From transactions to tables: in every guarded run without strangers so far, what the scanner reads in an unsaved
    * block is accepted exactly when the strange requests in it are bearable, and always when there are none, unless
    * something of ours is left behind. */
  lemma {:induction false} ScannedBlockAccepted(slack: nat, r: InternalRun, at: nat, parts: seq<Part>, es: seq<Events>,
                                                ps: seq<Piece>)
    requires IsRun(slack, r) && ExpiryGuarded(slack, r) && Clean(r.last)
    requires r.last.saved <= at < |r.last.chain.gens| && forall n :: r.last.saved <= n < at ==> Idle(r.last, n)
    requires Scanned(r.last, at, parts, es, ps)
    ensures var e, origin := Whole(ps).events, Whole(ps).origin;
      && |origin| == |e.intWithdrawals|
      && (ApplyChanges(r.last.t, InnerChanges(e)).Ok? <==> Bearable(r.last, e, origin))
      && (OwnBlock(r.last, at) ==> ApplyChanges(r.last.t, InnerChanges(e)).Ok?)
  {
    hide Scanned, Whole, IsRun, ExpiryGuarded, Unforged, Lossless, RowsInv, HotInv,
         ChainInv, Reconciled, ApplyChanges, Bearable, Idle;
    RunKeepsInv(slack, r);
    BlockIsReconciled(r.last, at, parts, es, ps);
    ScanAccepted(slack, r, at, Whole(ps).events, Whole(ps).origin);
  }

  lemma CompleteCovers(s: Sys, n: nat, p: Piece)
    requires Covers(s, n, p) && Complete(s, n, p.share)
    ensures Reconciled(s, n, p.events, p.origin)
  {}
}
