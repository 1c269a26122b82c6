/** The scanner's side of a batch: which message of an executed batch succeeded is recovered by comparing
  * the destinations in the external message with those of the messages the hot wallet really emitted. */
module Reconciliation {
  import opened Base
  import opened Cells
  import opened Codec
  import opened Batch
  import opened Uuids

  /** A message leaving the hot wallet, stamped by the chain. */
  datatype OutMsg = OutMsg(msg: Msg, lt: nat, at: nat, internal: bool)

  datatype ScanError = NotValid | Anomalous | BadAddress | BadTransfer | BadProxyPayload

  function KeySet(msgs: seq<Msg>): set<Address> {
    set m | m in msgs && KeyOf(m).Some? :: KeyOf(m).value
  }

  /** A batch is valid when every message has a standard destination and no two share one. */
  method ParseExternalMessage(msgs: seq<Msg>) returns (valid: bool, keys: set<Address>)
    ensures valid <==> DistinctKeys(msgs)
    ensures valid ==> keys == KeySet(msgs)
  {
    hide DecodeTransfer;
    keys := {};
    for i := 0 to |msgs|
      invariant DistinctKeys(msgs[..i]) && keys == KeySet(msgs[..i])
    {
      assert msgs[..i + 1] == msgs[..i] + [msgs[i]];
      var k := KeyOf(msgs[i]);
      if k.None? {
        assert msgs[i] in msgs;
        return false, {};
      }
      if k.value in keys {
        var m :| m in msgs[..i] && KeyOf(m) == k;
        var j :| 0 <= j < i && msgs[j] == m;
        return false, {};
      }
      AppendDistinct(msgs[..i], msgs[i]);
      keys := keys + {k.value};
    }
    assert msgs[..|msgs|] == msgs;
    valid := true;
  }

  /** Messages to a proxy: only a wrapped transfer to a jetton deposit confirms an internal withdrawal. */
  function ProxyEvents(book: AddressBook, o: OutMsg): Result<Events, ScanError> {
    match LoadProxied(o.msg.body)
    case None => Err(BadProxyPayload)
    case Some(inner) =>
      if inner.dest.None? || inner.dest.value.address !in book || book[inner.dest.value.address] != JettonDeposit then
        Ok(NO_EVENTS)
      else
        match DecodeTransfer(inner.body)
        case None => Err(BadProxyPayload)
        case Some(t) =>
          if t.dest.None? then Err(BadAddress)
          else Ok(NO_EVENTS.(sendings := [SendingConfirmation(o.lt, t.dest.value, t.comment)]))
  }

  function Paid(u: MsgId, o: OutMsg, to: Address, amount: int, comment: Text): Events {
    NO_EVENTS.(extWithdrawals := [ExternalWithdrawal(u, o.lt, o.at, to, amount, comment, false)])
  }

  /** The events of one emitted message, and the destination it accounts for. */
  function OutEvents(book: AddressBook, u: MsgId, o: OutMsg): Result<(Events, Address), ScanError> {
    if !o.internal then Err(Anomalous)
    else if o.msg.dest.None? then Err(BadAddress)
    else
      var addr := o.msg.dest.value;
      if addr in book && book[addr] == JettonHot then
        match DecodeTransfer(o.msg.body)
        case None => Err(BadTransfer)
        case Some(t) => if t.dest.None? then Err(BadAddress)
          else Ok((Paid(u, o, t.dest.value, t.amount, t.comment), t.dest.value))
      else if addr in book && book[addr] == JettonOwner then
        match ProxyEvents(book, o)
        case Err(e) => Err(e)
        case Ok(e) => Ok((e, addr))
      else if addr !in book then Ok((Paid(u, o, addr, o.msg.value, LoadComment(Some(o.msg.body))), addr))
      else Ok((NO_EVENTS, addr))
  }

  /** A body that a message to a wallet of some kind may carry: to a jetton wallet of ours a transfer to a standard
    * address, to a deposit's owner a message, and if that goes on to the jetton wallet of a deposit, such a transfer
    * in it. */
  predicate Decodable(book: AddressBook, kind: WalletType, body: Cell) {
    && (kind == JettonHot ==> TransferToStandard(body))
    && (kind == JettonOwner ==>
          LoadProxied(body).Some? && (ToDeposit(book, body) ==> TransferToStandard(LoadProxied(body).value.body)))
  }

  /** What is to be forwarded goes to the jetton wallet of a deposit. */
  predicate ToDeposit(book: AddressBook, body: Cell)
    requires LoadProxied(body).Some?
  {
    var dest := LoadProxied(body).value.dest;
    dest.Some? && dest.value.address in book && book[dest.value.address] == JettonDeposit
  }

  predicate TransferToStandard(body: Cell) {
    DecodeTransfer(body).Some? && DecodeTransfer(body).value.dest.Some?
  }

  /** A known address whose messages mean nothing to the scanner. */
  predicate Unread(book: AddressBook, a: Address) { a in book && book[a] !in {JettonHot, JettonOwner} }

  /** Exactly which messages of the hot wallet can be read; one to a known address of another kind is nobody's. */
  lemma OutReadExact(book: AddressBook, u: MsgId, o: OutMsg)
    ensures OutEvents(book, u, o).Ok? <==>
      && o.internal && o.msg.dest.Some?
      && (o.msg.dest.value in book ==> Decodable(book, book[o.msg.dest.value], o.msg.body))
    ensures o.internal && o.msg.dest.Some? && Unread(book, o.msg.dest.value) ==>
      OutEvents(book, u, o) == Ok((NO_EVENTS, o.msg.dest.value))
  {
    hide DecodeTransfer, LoadProxied, LoadComment;
  }

  ghost predicate AllRead(book: AddressBook, u: MsgId, outs: seq<OutMsg>) {
    forall o :: o in outs ==> OutEvents(book, u, o).Ok?
  }

  function Succeeded(book: AddressBook, u: MsgId, outs: seq<OutMsg>): Events
    requires AllRead(book, u, outs)
  {
    if outs == [] then NO_EVENTS
    else Succeeded(book, u, outs[..|outs| - 1]).Append(OutEvents(book, u, outs[|outs| - 1]).value.0)
  }

  function OutKeys(book: AddressBook, u: MsgId, outs: seq<OutMsg>): set<Address>
    requires AllRead(book, u, outs)
  {
    set o | o in outs :: OutEvents(book, u, o).value.1
  }

  /** One failure per address of a set, in whatever order the map iteration yields. */
  ghost predicate FailuresFor(u: MsgId, addrs: set<Address>, evs: seq<ExternalWithdrawal>) {
    && (forall i, j :: 0 <= i < j < |evs| ==> evs[i].to != evs[j].to)
    && (forall e :: e in evs ==> e.to in addrs && e == ExternalWithdrawal(u, 0, 0, e.to, 0, [], true))
    && forall a :: a in addrs ==> exists e :: e in evs && e.to == a
  }

  method FailedWithdrawals(book: AddressBook, ins: set<Address>, outs: set<Address>, u: MsgId)
    returns (evs: seq<ExternalWithdrawal>)
    ensures FailuresFor(u, ins - outs - book.Keys, evs)
  {
    evs := [];
    var todo := ins;
    while todo != {}
      invariant todo <= ins
      invariant FailuresFor(u, (ins - todo) - outs - book.Keys, evs)
    {
      var a :| a in todo;
      ghost var before, done := evs, (ins - todo) - outs - book.Keys;
      if a !in outs && a !in book {
        evs := evs + [ExternalWithdrawal(u, 0, 0, a, 0, [], true)];
        assert evs[|before|] in evs;
      }
      todo := todo - {a};
      forall b | b in (ins - todo) - outs - book.Keys ensures exists e :: e in evs && e.to == b {
        if b != a {
          assert b in done;
          var e :| e in before && e.to == b;
          assert e in evs;
        } else { assert evs[|before|].to == a; }
      }
    }
    assert ins - todo == ins;
  }

  /** One executed batch: its valid contents against what was emitted. */
  method ProcessHotExternalIn(book: AddressBook, u: MsgId, ins: seq<Msg>, outs: seq<OutMsg>)
    returns (r: Result<Events, ScanError>, failed: seq<ExternalWithdrawal>)
    ensures r.Ok? <==> DistinctKeys(ins) && AllRead(book, u, outs)
    ensures r.Ok? ==>
      && FailuresFor(u, KeySet(ins) - OutKeys(book, u, outs) - book.Keys, failed)
      && r.value == Succeeded(book, u, outs).Append(NO_EVENTS.(extWithdrawals := failed))
  {
    hide OutEvents, KeyOf, DistinctKeys;
    failed := [];
    var valid, keys := ParseExternalMessage(ins);
    if !valid { return Err(NotValid), failed; }
    var events, seen: set<Address> := NO_EVENTS, {};
    for i := 0 to |outs|
      invariant AllRead(book, u, outs[..i])
      invariant events == Succeeded(book, u, outs[..i]) && seen == OutKeys(book, u, outs[..i])
    {
      assert outs[..i + 1][..i] == outs[..i] && outs[..i + 1] == outs[..i] + [outs[i]];
      var e := OutEvents(book, u, outs[i]);
      if e.Err? {
        assert outs[i] in outs;
        return Err(e.error), failed;
      }
      events := events.Append(e.value.0);
      seen := seen + {e.value.1};
    }
    assert outs[..|outs|] == outs;
    failed := FailedWithdrawals(book, keys, seen, u);
    r := Ok(events.Append(NO_EVENTS.(extWithdrawals := failed)));
  }

  // ---- Reconciliation of a built batch ----

  /** `outs` are the messages of batch `b` at the distinct positions `at`: any subset, in any order. */
  ghost predicate Emitted(b: Withdrawals, at: seq<nat>, outs: seq<OutMsg>) {
    && |at| == |outs|
    && (forall j :: 0 <= j < |at| ==> at[j] < |b.messages| && outs[j].internal && outs[j].msg == b.messages[at[j]])
    && forall i, j :: 0 <= i < j < |at| ==> at[i] != at[j]
  }

  /** The task paid by the message at a position, if it is an external one. */
  function ExternalAt(b: Withdrawals, p: nat): Option<ExternalTask> {
    var base := |b.service| + |b.internals|;
    if base <= p < base + |b.external| then Some(b.external[p - base]) else None
  }

  function InternalAt(b: Withdrawals, p: nat): Option<InternalWithdrawalPlan> {
    if |b.service| <= p < |b.service| + |b.internals| then Some(b.internals[p - |b.service|]) else None
  }

  /** The expected events: a payment per external task, a confirmation per internal one, nothing for service
    * messages. */
  function ExpectedAt(w: World, b: Withdrawals, u: MsgId, p: nat, o: OutMsg): Events {
    match ExternalAt(b, p)
    case Some(t) => Paid(u, o, t.dest, t.amount, t.comment)
    case None =>
      match InternalAt(b, p)
      case Some(i) => NO_EVENTS.(sendings := [SendingConfirmation(o.lt, w.hot, PrintUuid(i.memo))])
      case None => NO_EVENTS
  }

  function Expected(w: World, b: Withdrawals, u: MsgId, at: seq<nat>, outs: seq<OutMsg>): Events
    requires |at| == |outs|
  {
    if at == [] then NO_EVENTS
    else
      var n := |at| - 1;
      Expected(w, b, u, at[..n], outs[..n]).Append(ExpectedAt(w, b, u, at[n], outs[n]))
  }

  lemma MessageReads(w: World, b: Withdrawals, u: MsgId, p: nat, o: OutMsg)
    requires Described(w, b) && DistinctKeys(b.messages) && p < |b.messages| && o.internal && o.msg == b.messages[p]
    ensures OutEvents(w.book, u, o) == Ok((ExpectedAt(w, b, u, p, o), KeyOf(o.msg).value))
  {
    hide DecodeTransfer, LoadProxied, LoadComment;
    var s, i := |b.service|, |b.internals|;
    if p < s {
      assert ServiceMessage(w, b.service[p].task, b.messages[p]);
    } else if p < s + i {
      assert InternalMessage(w, b.internals[p - s], b.messages[s + (p - s)]);
    } else {
      assert ExternalMessage(w, b.external[p - s - i], b.messages[s + i + (p - s - i)]);
    }
  }

  lemma EmittedAreRead(w: World, b: Withdrawals, u: MsgId, at: seq<nat>, outs: seq<OutMsg>)
    requires Described(w, b) && DistinctKeys(b.messages) && Emitted(b, at, outs)
    ensures AllRead(w.book, u, outs)
    ensures OutKeys(w.book, u, outs) == set j | 0 <= j < |at| :: KeyOf(b.messages[at[j]]).value
  {
    hide OutEvents, KeyOf, Described, ExpectedAt;
    forall o | o in outs ensures OutEvents(w.book, u, o).Ok? {
      var j :| 0 <= j < |outs| && outs[j] == o;
      MessageReads(w, b, u, at[j], o);
    }
    forall j | 0 <= j < |at| ensures OutEvents(w.book, u, outs[j]).value.1 == KeyOf(b.messages[at[j]]).value {
      MessageReads(w, b, u, at[j], outs[j]);
    }
  }

  /** Every emitted message reads as exactly its task. */
  lemma {:induction false} EmittedReads(w: World, b: Withdrawals, u: MsgId, at: seq<nat>, outs: seq<OutMsg>)
    requires Described(w, b) && DistinctKeys(b.messages) && Emitted(b, at, outs)
    ensures AllRead(w.book, u, outs)
    ensures Succeeded(w.book, u, outs) == Expected(w, b, u, at, outs)
    ensures OutKeys(w.book, u, outs) == set j | 0 <= j < |at| :: KeyOf(b.messages[at[j]]).value
    decreases |at|
  {
    hide OutEvents, KeyOf, Described, DistinctKeys, ExpectedAt, OutKeys;
    EmittedAreRead(w, b, u, at, outs);
    if at != [] {
      var n := |at| - 1;
      EmittedReads(w, b, u, at[..n], outs[..n]);
      MessageReads(w, b, u, at[n], outs[n]);
    }
  }

  /** Position of the k-th external task's message in the batch. */
  function Position(b: Withdrawals, k: nat): nat {
    |b.service| + |b.internals| + k
  }

  predicate PaysTask(b: Withdrawals, u: MsgId, k: nat, e: ExternalWithdrawal) {
    && k < |b.external| && e.msg == u && !e.isFailed
    && e.to == b.external[k].dest && e.amount == b.external[k].amount && e.comment == b.external[k].comment
  }

  /** The event carries the message's logical and block time. */
  predicate Stamped(o: OutMsg, e: ExternalWithdrawal) { e.lt == o.lt && e.utime == o.at }

  /** A payment, or a confirmation, of the message at a position. */
  predicate PaymentAt(b: Withdrawals, p: nat, o: OutMsg, e: ExternalWithdrawal) {
    p >= Position(b, 0) && p - Position(b, 0) < |b.external| && e.to == b.external[p - Position(b, 0)].dest
    && Stamped(o, e)
  }

  predicate ConfirmationAt(b: Withdrawals, p: nat, o: OutMsg, c: SendingConfirmation) {
    && |b.service| <= p < |b.service| + |b.internals| && c.memo == PrintUuid(b.internals[p - |b.service|].memo)
    && c.lt == o.lt
  }

  /** Every event bears the times of the message it is about. */
  ghost predicate AllStamped(b: Withdrawals, at: seq<nat>, outs: seq<OutMsg>, e: Events)
    requires |at| == |outs|
  {
    && (forall x :: x in e.extWithdrawals && !x.isFailed ==>
          exists j :: 0 <= j < |at| && PaymentAt(b, at[j], outs[j], x))
    && forall c :: c in e.sendings ==> exists j :: 0 <= j < |at| && ConfirmationAt(b, at[j], outs[j], c)
  }

  predicate ConfirmsTask(w: World, b: Withdrawals, k: nat, c: SendingConfirmation) {
    k < |b.internals| && c.memo == PrintUuid(b.internals[k].memo) && c.payer == w.hot
  }

  lemma {:induction false} ExpectedStep(w: World, b: Withdrawals, u: MsgId, at: seq<nat>, outs: seq<OutMsg>)
    requires |at| == |outs| && at != []
    ensures var n := |at| - 1;
      var prev, last := Expected(w, b, u, at[..n], outs[..n]), ExpectedAt(w, b, u, at[n], outs[n]);
      && Expected(w, b, u, at, outs).extWithdrawals == prev.extWithdrawals + last.extWithdrawals
      && Expected(w, b, u, at, outs).sendings == prev.sendings + last.sendings
  {}

  /** Every expected payment is the payment of an emitted external task ... */
  lemma {:induction false} PaymentHasTask(w: World, b: Withdrawals, u: MsgId, at: seq<nat>, outs: seq<OutMsg>,
                                          i: nat) returns (k: nat, j: nat)
    requires |at| == |outs| && i < |Expected(w, b, u, at, outs).extWithdrawals|
    ensures k < |b.external| && j < |at| && at[j] == Position(b, k)
      && PaysTask(b, u, k, Expected(w, b, u, at, outs).extWithdrawals[i])
      && Stamped(outs[j], Expected(w, b, u, at, outs).extWithdrawals[i])
    ensures i == |Expected(w, b, u, at[..j], outs[..j]).extWithdrawals|
    decreases |at|
  {
    var n := |at| - 1;
    ExpectedStep(w, b, u, at, outs);
    var prev := Expected(w, b, u, at[..n], outs[..n]).extWithdrawals;
    if i < |prev| {
      k, j := PaymentHasTask(w, b, u, at[..n], outs[..n], i);
      assert at[..n][..j] == at[..j] && outs[..n][..j] == outs[..j];
    } else {
      k, j := at[n] - Position(b, 0), n;
    }
  }

  /** ... every emitted external task has one ... */
  lemma {:induction false} TaskHasPayment(w: World, b: Withdrawals, u: MsgId, at: seq<nat>, outs: seq<OutMsg>,
                                          k: nat) returns (i: nat)
    requires |at| == |outs| && k < |b.external| && Position(b, k) in at
    ensures i < |Expected(w, b, u, at, outs).extWithdrawals|
      && PaysTask(b, u, k, Expected(w, b, u, at, outs).extWithdrawals[i])
    decreases |at|
  {
    var n := |at| - 1;
    ExpectedStep(w, b, u, at, outs);
    if at[n] == Position(b, k) {
      i := |Expected(w, b, u, at[..n], outs[..n]).extWithdrawals|;
    } else {
      i := TaskHasPayment(w, b, u, at[..n], outs[..n], k);
    }
  }

  /** ... and no two payments share a destination. */
  lemma {:induction false} PaymentsDistinct(w: World, b: Withdrawals, u: MsgId, at: seq<nat>, outs: seq<OutMsg>)
    requires Described(w, b) && DistinctKeys(b.messages) && Emitted(b, at, outs)
    ensures var evs := Expected(w, b, u, at, outs).extWithdrawals;
      forall i, j :: 0 <= i < j < |evs| ==> evs[i].to != evs[j].to
  {
    hide Described, DistinctKeys, ExpectedAt;
    var evs := Expected(w, b, u, at, outs).extWithdrawals;
    forall i, j | 0 <= i < j < |evs| ensures evs[i].to != evs[j].to {
      var k, p := PaymentHasTask(w, b, u, at, outs, i);
      var l, q := PaymentHasTask(w, b, u, at, outs, j);
      assert p == q ==> i == j;
      DistinctDestinations(w, b, k, l);
    }
  }

  lemma DistinctDestinations(w: World, b: Withdrawals, k: nat, l: nat)
    requires Described(w, b) && DistinctKeys(b.messages) && k < |b.external| && l < |b.external| && k != l
    ensures b.external[k].dest != b.external[l].dest
  {
    ExternalKey(w, b, k);
    ExternalKey(w, b, l);
    var p, q := Position(b, k), Position(b, l);
    if k < l {
      assert KeyOf(b.messages[p]) != KeyOf(b.messages[q]);
    } else {
      assert KeyOf(b.messages[q]) != KeyOf(b.messages[p]);
    }
  }

  lemma ExternalKey(w: World, b: Withdrawals, k: nat)
    requires Described(w, b) && k < |b.external|
    ensures Position(b, k) < |b.messages| && KeyOf(b.messages[Position(b, k)]) == Some(b.external[k].dest)
    ensures b.external[k].dest !in w.book
  {
    hide DecodeTransfer, LoadProxied, LoadComment;
    assert ExternalMessage(w, b.external[k], b.messages[|b.service| + |b.internals| + k]);
  }

  /** The failures of a batch are exactly its external tasks whose messages were not emitted. */
  lemma FailureMeansNotEmitted(w: World, b: Withdrawals, u: MsgId, at: seq<nat>, outs: seq<OutMsg>, a: Address)
    requires Described(w, b) && DistinctKeys(b.messages) && Emitted(b, at, outs) && AllRead(w.book, u, outs)
    requires OutKeys(w.book, u, outs) == set j | 0 <= j < |at| :: KeyOf(b.messages[at[j]]).value
    ensures a in KeySet(b.messages) - OutKeys(w.book, u, outs) - w.book.Keys <==>
      exists k: nat :: k < |b.external| && b.external[k].dest == a && Position(b, k) !in at
  {
    hide OutEvents, KeyOf, Described, AllRead;
    if a in KeySet(b.messages) - OutKeys(w.book, u, outs) - w.book.Keys {
      var m :| m in b.messages && KeyOf(m).Some? && KeyOf(m).value == a;
      KeyOrigin(w, b, m);
      var t :| t in b.external && t.dest == a;
      var k: nat :| k < |b.external| && b.external[k] == t;
      ExternalKey(w, b, k);
    }
    if k: nat :| k < |b.external| && b.external[k].dest == a && Position(b, k) !in at {
      ExternalKey(w, b, k);
      assert b.messages[Position(b, k)] in b.messages;
      if j :| 0 <= j < |at| && KeyOf(b.messages[at[j]]).value == a {
        KeysDiffer(b, at[j], Position(b, k));
      }
    }
  }

  lemma KeysDiffer(b: Withdrawals, p: nat, q: nat)
    requires DistinctKeys(b.messages) && p < |b.messages| && q < |b.messages| && p != q
    ensures KeyOf(b.messages[p]).Some? && KeyOf(b.messages[q]).Some?
      && KeyOf(b.messages[p]).value != KeyOf(b.messages[q]).value
  {
    hide KeyOf;
    assert b.messages[p] in b.messages && b.messages[q] in b.messages;
    if p < q {
      assert KeyOf(b.messages[p]) != KeyOf(b.messages[q]);
    } else {
      assert KeyOf(b.messages[q]) != KeyOf(b.messages[p]);
    }
  }

  lemma {:induction false} ConfirmationHasTask(w: World, b: Withdrawals, u: MsgId, at: seq<nat>, outs: seq<OutMsg>,
                                               i: nat) returns (k: nat, j: nat)
    requires |at| == |outs| && i < |Expected(w, b, u, at, outs).sendings|
    ensures j < |at| && at[j] == |b.service| + k && ConfirmsTask(w, b, k, Expected(w, b, u, at, outs).sendings[i])
      && Expected(w, b, u, at, outs).sendings[i].lt == outs[j].lt
    ensures i == |Expected(w, b, u, at[..j], outs[..j]).sendings|
    decreases |at|
  {
    var n := |at| - 1;
    ExpectedStep(w, b, u, at, outs);
    var prev := Expected(w, b, u, at[..n], outs[..n]).sendings;
    if i < |prev| {
      k, j := ConfirmationHasTask(w, b, u, at[..n], outs[..n], i);
      assert at[..n][..j] == at[..j] && outs[..n][..j] == outs[..j];
    } else {
      k, j := at[n] - |b.service|, n;
    }
  }

  lemma {:induction false} TaskHasConfirmation(w: World, b: Withdrawals, u: MsgId, at: seq<nat>, outs: seq<OutMsg>,
                                               k: nat) returns (i: nat)
    requires |at| == |outs| && k < |b.internals| && |b.service| + k in at
    ensures i < |Expected(w, b, u, at, outs).sendings| && ConfirmsTask(w, b, k, Expected(w, b, u, at, outs).sendings[i])
    decreases |at|
  {
    var n := |at| - 1;
    ExpectedStep(w, b, u, at, outs);
    if at[n] == |b.service| + k {
      i := |Expected(w, b, u, at[..n], outs[..n]).sendings|;
    } else {
      i := TaskHasConfirmation(w, b, u, at[..n], outs[..n], k);
    }
  }

  /** Exactly one event per external task, failed exactly when its message was not emitted. */
  ghost predicate ExternalsReconciled(b: Withdrawals, u: MsgId, at: seq<nat>, evs: seq<ExternalWithdrawal>) {
    && (forall i, j :: 0 <= i < j < |evs| ==> evs[i].to != evs[j].to)
    && (forall e :: e in evs ==> EventOfTask(b, u, at, e))
    && forall k :: 0 <= k < |b.external| ==> Reported(b.external[k].dest, evs)
  }

  ghost predicate EventOfTask(b: Withdrawals, u: MsgId, at: seq<nat>, e: ExternalWithdrawal) {
    exists k: nat :: k < |b.external| && e.msg == u && e.to == b.external[k].dest
      && (e.isFailed <==> Position(b, k) !in at) && (!e.isFailed ==> PaysTask(b, u, k, e))
  }

  /** Exactly one confirmation per emitted internal task. */
  ghost predicate InternalsConfirmed(w: World, b: Withdrawals, at: seq<nat>, cs: seq<SendingConfirmation>) {
    && (forall c :: c in cs ==> exists k: nat :: ConfirmsTask(w, b, k, c) && |b.service| + k in at)
    && (forall k: nat :: k < |b.internals| && |b.service| + k in at ==> Confirmed(w, b, k, cs))
    && (DistinctMemos(b) ==> forall i, j :: 0 <= i < j < |cs| ==> cs[i].memo != cs[j].memo)
  }

  predicate Confirmed(w: World, b: Withdrawals, k: nat, cs: seq<SendingConfirmation>) {
    exists c :: c in cs && ConfirmsTask(w, b, k, c)
  }

  lemma {:induction false} SendingsReconciled(w: World, b: Withdrawals, u: MsgId, at: seq<nat>, outs: seq<OutMsg>)
    requires Emitted(b, at, outs)
    ensures InternalsConfirmed(w, b, at, Expected(w, b, u, at, outs).sendings)
  {
    hide ExpectedAt, Expected, Confirmed;
    var cs := Expected(w, b, u, at, outs).sendings;
    forall c | c in cs ensures exists k: nat :: ConfirmsTask(w, b, k, c) && |b.service| + k in at {
      var i :| 0 <= i < |cs| && cs[i] == c;
      var k, j := ConfirmationHasTask(w, b, u, at, outs, i);
    }
    forall k: nat | k < |b.internals| && |b.service| + k in at ensures Confirmed(w, b, k, cs) {
      var i := TaskHasConfirmation(w, b, u, at, outs, k);
      OneConfirms(w, b, k, cs, i);
    }
    if DistinctMemos(b) { DistinctConfirmations(w, b, u, at, outs); }
  }

  lemma OneConfirms(w: World, b: Withdrawals, k: nat, cs: seq<SendingConfirmation>, i: nat)
    requires i < |cs| && ConfirmsTask(w, b, k, cs[i])
    ensures Confirmed(w, b, k, cs)
  {
    assert cs[i] in cs;
  }

  lemma {:induction false} DistinctConfirmations(w: World, b: Withdrawals, u: MsgId, at: seq<nat>, outs: seq<OutMsg>)
    requires Emitted(b, at, outs) && DistinctMemos(b)
    ensures var cs := Expected(w, b, u, at, outs).sendings;
      forall i, j :: 0 <= i < j < |cs| ==> cs[i].memo != cs[j].memo
  {
    hide ExpectedAt, Expected, PrintUuid;
    var cs := Expected(w, b, u, at, outs).sendings;
    forall i, j | 0 <= i < j < |cs| ensures cs[i].memo != cs[j].memo {
      var k, p := ConfirmationHasTask(w, b, u, at, outs, i);
      var l, q := ConfirmationHasTask(w, b, u, at, outs, j);
      assert p == q ==> i == j;
      PrintsApart(b.internals[k].memo, b.internals[l].memo);
    }
  }

  /** Batch reconciliation: whatever subset of a built batch the wallet emits, in whatever order, and in whatever
    * order failures are listed, the scanner reads every message and reports each task exactly once. */
  lemma {:induction false} BatchReconciliation(w: World, b: Withdrawals, u: MsgId, at: seq<nat>, outs: seq<OutMsg>,
                            failed: seq<ExternalWithdrawal>)
    requires Described(w, b) && DistinctKeys(b.messages) && Emitted(b, at, outs)
    ensures AllRead(w.book, u, outs)
    ensures FailuresFor(u, KeySet(b.messages) - OutKeys(w.book, u, outs) - w.book.Keys, failed) ==>
      var e := Succeeded(w.book, u, outs).Append(NO_EVENTS.(extWithdrawals := failed));
      && ExternalsReconciled(b, u, at, e.extWithdrawals) && InternalsConfirmed(w, b, at, e.sendings)
      && AllStamped(b, at, outs, e)
      && e.extIncomes == [] && e.intIncomes == [] && e.intWithdrawals == [] && e.confirmations == []
  {
    hide OutEvents, KeyOf, Described, DistinctKeys, ExpectedAt, AllRead, AllStamped;
    EmittedReads(w, b, u, at, outs);
    ExpectedOnlyTwoKinds(w, b, u, at, outs);
    SendingsReconciled(w, b, u, at, outs);
    if FailuresFor(u, KeySet(b.messages) - OutKeys(w.book, u, outs) - w.book.Keys, failed) {
      ExternalsAreReconciled(w, b, u, at, outs, failed);
      var sent := Expected(w, b, u, at, outs).sendings;
      assert sent + [] == sent;
      ExpectedAreStamped(w, b, u, at, outs, failed);
    }
  }

  lemma {:induction false} ExpectedAreStamped(w: World, b: Withdrawals, u: MsgId, at: seq<nat>, outs: seq<OutMsg>,
                                              failed: seq<ExternalWithdrawal>)
    requires |at| == |outs| && forall x :: x in failed ==> x.isFailed
    ensures var e := Expected(w, b, u, at, outs).Append(NO_EVENTS.(extWithdrawals := failed));
      AllStamped(b, at, outs, e)
  {
    hide ExpectedAt, Expected, PrintUuid;
    var paid, sent := Expected(w, b, u, at, outs).extWithdrawals, Expected(w, b, u, at, outs).sendings;
    forall x | x in paid + failed && !x.isFailed ensures exists j :: 0 <= j < |at| && PaymentAt(b, at[j], outs[j], x) {
      var i :| 0 <= i < |paid| && paid[i] == x;
      var k, j := PaymentHasTask(w, b, u, at, outs, i);
      assert PaymentAt(b, at[j], outs[j], x);
    }
    forall c | c in sent + [] ensures exists j :: 0 <= j < |at| && ConfirmationAt(b, at[j], outs[j], c) {
      var i :| 0 <= i < |sent| && sent[i] == c;
      var k, j := ConfirmationHasTask(w, b, u, at, outs, i);
      assert ConfirmationAt(b, at[j], outs[j], c);
    }
  }

  /** For a batch the builder returned, with fresh UUIDs: no two confirmations share a memo. */
  lemma {:induction false} BuiltBatchReconciliation(w: World, tasks: seq<InternalTask>, turns: Turns, b: Withdrawals,
                                                    u: MsgId, at: seq<nat>, outs: seq<OutMsg>)
    requires Described(w, b) && DistinctKeys(b.messages) && Emitted(b, at, outs)
    requires Injective(w.memo) && InternalBuilt(w, tasks, turns.internals, b)
    ensures AllRead(w.book, u, outs)
    ensures var cs := Succeeded(w.book, u, outs).sendings;
      && InternalsConfirmed(w, b, at, cs) && forall i, j :: 0 <= i < j < |cs| ==> cs[i].memo != cs[j].memo
  {
    hide OutEvents, KeyOf, Described, DistinctKeys, ExpectedAt, Expected, AllRead, InternalBuilt, Confirmed;
    EmittedReads(w, b, u, at, outs);
    SendingsReconciled(w, b, u, at, outs);
    MemosAreDistinct(w, tasks, turns.internals, b);
  }

  lemma {:induction false} ExpectedOnlyTwoKinds(w: World, b: Withdrawals, u: MsgId, at: seq<nat>, outs: seq<OutMsg>)
    requires |at| == |outs|
    ensures var e := Expected(w, b, u, at, outs);
      e.extIncomes == [] && e.intIncomes == [] && e.intWithdrawals == [] && e.confirmations == []
    decreases |at|
  {
    if at != [] { ExpectedOnlyTwoKinds(w, b, u, at[..|at| - 1], outs[..|at| - 1]); }
  }

  lemma {:induction false} ExternalsAreReconciled(w: World, b: Withdrawals, u: MsgId, at: seq<nat>, outs: seq<OutMsg>,
                               failed: seq<ExternalWithdrawal>)
    requires Described(w, b) && DistinctKeys(b.messages) && Emitted(b, at, outs) && AllRead(w.book, u, outs)
    requires OutKeys(w.book, u, outs) == set j | 0 <= j < |at| :: KeyOf(b.messages[at[j]]).value
    requires FailuresFor(u, KeySet(b.messages) - OutKeys(w.book, u, outs) - w.book.Keys, failed)
    ensures ExternalsReconciled(b, u, at, Expected(w, b, u, at, outs).extWithdrawals + failed)
  {
    hide OutEvents, KeyOf, Described, DistinctKeys, ExpectedAt, AllRead, Expected, KeySet, OutKeys;
    var paid := Expected(w, b, u, at, outs).extWithdrawals;
    forall e | e in failed ensures EventOfTask(b, u, at, e) {
      FailureMeansNotEmitted(w, b, u, at, outs, e.to);
    }
    forall e | e in paid ensures EventOfTask(b, u, at, e) && !e.isFailed {
      var i :| 0 <= i < |paid| && paid[i] == e;
      var k, j := PaymentHasTask(w, b, u, at, outs, i);
    }
    PaymentsDistinct(w, b, u, at, outs);
    forall k, l | 0 <= k < |b.external| && 0 <= l < |b.external| && b.external[k].dest == b.external[l].dest
      ensures k == l {
      if k != l { DistinctDestinations(w, b, k, l); }
    }
    forall k: nat | k < |b.external|
      ensures Reported(b.external[k].dest, if Position(b, k) in at then paid else failed) {
      if Position(b, k) in at {
        var i := TaskHasPayment(w, b, u, at, outs, k);
        assert paid[i] in paid;
      } else {
        FailureMeansNotEmitted(w, b, u, at, outs, b.external[k].dest);
      }
    }
    PaidAndFailed(b, u, at, paid, failed);
  }

  predicate DistinctExternals(b: Withdrawals) {
    forall k, l :: 0 <= k < |b.external| && 0 <= l < |b.external| && b.external[k].dest == b.external[l].dest ==> k == l
  }

  predicate Reported(a: Address, evs: seq<ExternalWithdrawal>) {
    exists e :: e in evs && e.to == a
  }

  lemma PaidAndFailed(b: Withdrawals, u: MsgId, at: seq<nat>, paid: seq<ExternalWithdrawal>,
                      failed: seq<ExternalWithdrawal>)
    requires DistinctExternals(b)
    requires forall i, j :: 0 <= i < j < |paid| ==> paid[i].to != paid[j].to
    requires forall i, j :: 0 <= i < j < |failed| ==> failed[i].to != failed[j].to
    requires forall e :: e in paid ==> EventOfTask(b, u, at, e) && !e.isFailed
    requires forall e :: e in failed ==> EventOfTask(b, u, at, e) && e.isFailed
    requires forall k: nat :: k < |b.external| ==>
      Reported(b.external[k].dest, if Position(b, k) in at then paid else failed)
    ensures ExternalsReconciled(b, u, at, paid + failed)
  {
    var evs := paid + failed;
    forall e | e in evs ensures EventOfTask(b, u, at, e) {}
    forall i, j | 0 <= i < j < |evs| ensures evs[i].to != evs[j].to {
      if i < |paid| <= j && evs[i].to == evs[j].to { SameTaskSameFate(b, u, at, paid[i], failed[j - |paid|]); }
    }
    forall k | 0 <= k < |b.external| ensures Reported(b.external[k].dest, evs) {
      assert Reported(b.external[k].dest, if Position(b, k) in at then paid else failed);
      var e :| (e in paid || e in failed) && e.to == b.external[k].dest;
      assert e in evs;
    }
  }

  lemma SameTaskSameFate(b: Withdrawals, u: MsgId, at: seq<nat>, d: ExternalWithdrawal, e: ExternalWithdrawal)
    requires DistinctExternals(b)
    requires EventOfTask(b, u, at, d) && EventOfTask(b, u, at, e) && d.to == e.to
    ensures d.isFailed == e.isFailed
  {
    var k: nat :| k < |b.external| && d.to == b.external[k].dest && (d.isFailed <==> Position(b, k) !in at);
    var l: nat :| l < |b.external| && e.to == b.external[l].dest && (e.isFailed <==> Position(b, l) !in at);
  }
}
