/** Message bodies: comments, jetton transfers (TEP-74) and messages wrapped for a proxy contract,
  * as the withdrawal builders print them and the block scanner reads them back. */
module Codec {
  import opened Base
  import opened Cells

  const TRANSFER_OP: nat := 0x0f8a7ea5

  datatype JettonTransfer = JettonTransfer(amount: nat, dest: Option<Address>, comment: Text)

  /** An internal message: destination, attached nanoTON, body. */
  datatype Msg = Msg(dest: Option<Address>, value: nat, body: Cell)

  function BuildComment(t: Text): Cell {
    StoreSnake(UintBits(0, 32), t)
  }

  /** Missing, foreign or malformed payloads read as the empty comment. */
  function LoadComment(c: Option<Cell>): (t: Text)
    ensures t != [] ==> c.Some? && |c.value.bits| >= 32 && BitsUint(c.value.bits[..32]) == 0
  {
    if c.None? then []
    else
      match LoadUint(c.value, 32)
      case None => []
      case Some(l) =>
        if l.value != 0 then []
        else match LoadSnake(l.rest) case None => [] case Some(t) => t
  }

  /** Opcode, query id, amount and destination ... */
  function TransferHead(dest: Address, amount: nat, queryId: nat): seq<bool> {
    UintBits(TRANSFER_OP, 32) + (UintBits(queryId, 64) + (CoinsBits(amount) + AddrBits(Some(dest))))
  }

  /** ... response address, no custom payload, forward amount and the tag of the forward payload. */
  function TransferTail(response: Address, forward: nat, inRef: bool): seq<bool> {
    AddrBits(Some(response)) + ([false] + (CoinsBits(forward) + [inRef]))
  }

  /** An empty comment is an empty inline payload, any other one sits behind a reference. */
  function BuildTransfer(dest: Address, response: Address, amount: nat, forward: nat, queryId: nat,
                         comment: Text): Cell {
    Cell(TransferHead(dest, amount, queryId) + TransferTail(response, forward, comment != []),
         if comment != [] then [BuildComment(comment)] else [])
  }

  function LoadMaybeRef(c: Cell): Option<Loaded<Option<Cell>>> {
    var bit :- LoadBits(c, 1);
    if !bit.value[0] then Some(Loaded(None, bit.rest))
    else
      var r :- LoadRef(bit.rest);
      Some(Loaded(Some(r.value), r.rest))
  }

  /** Either the rest of the slice itself or a reference. */
  function LoadEither(c: Cell): Option<Cell> {
    var bit :- LoadBits(c, 1);
    if !bit.value[0] then Some(bit.rest)
    else
      var r :- LoadRef(bit.rest);
      Some(r.value)
  }

  /** Every field of a transfer request. */
  datatype Transfer =
    Transfer(queryId: nat, amount: nat, dest: Option<Std>, response: Option<Std>, forward: nat, comment: Text)

  datatype Tail = Tail(response: Option<Std>, forward: nat, payload: Cell)

  function ParseTransfer(body: Cell): (r: Option<Transfer>)
    ensures r.Some? ==> |body.bits| >= 96 && BitsUint(body.bits[..32]) == 0x0f8a7ea5
  {
    var op :- LoadUint(body, 32);
    if op.value != TRANSFER_OP then None
    else
      var queryId :- LoadUint(op.rest, 64);
      var amount :- LoadCoins(queryId.rest);
      var dest :- LoadStd(amount.rest);
      var tail :- ParseTail(dest.rest);
      Some(Transfer(queryId.value, amount.value, dest.value, tail.response, tail.forward,
        LoadComment(Some(tail.payload))))
  }

  function ParseTail(c: Cell): Option<Tail> {
    var response :- LoadStd(c);
    var custom :- LoadMaybeRef(response.rest);
    var forward :- LoadCoins(custom.rest);
    var payload :- LoadEither(forward.rest);
    Some(Tail(response.value, forward.value, payload))
  }

  /** What the scanner keeps of a transfer request. */
  function DecodeTransfer(body: Cell): Option<JettonTransfer> {
    var t :- ParseTransfer(body);
    Some(JettonTransfer(t.amount, AnyWorkchain(t.dest), t.comment))
  }

  const NOTIFICATION_OP: nat := 0x7362d09c

  datatype JettonNotification = JettonNotification(amount: nat, sender: Option<Address>, comment: Text)

  /** What a jetton wallet tells its owner about received jettons. */
  function DecodeNotification(body: Cell): (r: Option<JettonNotification>)
    ensures r.Some? ==> |body.bits| >= 96 && BitsUint(body.bits[..32]) == 0x7362d09c
  {
    var op :- LoadUint(body, 32);
    if op.value != NOTIFICATION_OP then None
    else
      var queryId :- LoadUint(op.rest, 64);
      var amount :- LoadCoins(queryId.rest);
      var sender :- LoadAddr(amount.rest);
      var payload :- LoadEither(sender.rest);
      Some(JettonNotification(amount.value, sender.value, LoadComment(Some(payload))))
  }

  /** A notification as TEP-74 lays it out: opcode, query id, amount, sender, then the payload inline or behind a
    * reference. */
  function NotificationCell(queryId: nat, amount: nat, sender: Address, comment: Text): Cell {
    Cell(UintBits(0x7362d09c, 32) + (UintBits(queryId, 64) + (CoinsBits(amount)
         + (AddrBits(Some(sender)) + [comment != []]))),
         if comment != [] then [BuildComment(comment)] else [])
  }

  /** The scanner reads amount, sender and comment of a notification. */
  lemma NotificationRoundTrip(queryId: nat, amount: nat, sender: Address, comment: Text)
    requires amount < Pow2(120) && queryId < Pow2(64)
    ensures DecodeNotification(NotificationCell(queryId, amount, sender, comment))
         == Some(JettonNotification(amount, Some(sender), comment))
  {
    hide LoadUint, LoadAddr, LoadCoins, AddrBits, CoinsBits, UintBits, LoadComment, BuildComment, Pow2;
    var tag, refs := [comment != []], if comment != [] then [BuildComment(comment)] else [];
    var b3 := AddrBits(Some(sender)) + tag;
    var b2 := CoinsBits(amount) + b3;
    var b1 := UintBits(queryId, 64) + b2;
    Pow2Values();
    LoadUintOf(NOTIFICATION_OP, 32, b1, refs);
    LoadUintOf(queryId, 64, b2, refs);
    LoadCoinsOf(amount, b3, refs);
    LoadAddrOf(Some(sender), tag, refs);
    assert tag + [] == tag;
    LoadBitsOf(tag, [], refs);
    CommentRoundTrip(comment);
    EmptyPayload();
  }

  lemma CommentFits(t: Text)
    ensures Fits(BuildComment(t)) && |BuildComment(t).bits| >= 32 && BuildComment(t).bits[..32] == UintBits(0, 32)
  {
    SnakeFits(UintBits(0, 32), t);
    SnakeHead(UintBits(0, 32), t);
  }

  lemma CommentHead(t: Text)
    ensures var c := BuildComment(t);
      |c.bits| >= 32 && LoadUint(c, 32) == Some(Loaded(0, Cell(c.bits[32..], c.refs)))
  {
    CommentFits(t);
    UintRoundTrip(0, 32);
  }

  /** A comment of any length reads back as written. */
  lemma CommentRoundTrip(t: Text)
    ensures LoadComment(Some(BuildComment(t))) == t
  {
    CommentHead(t);
    SnakeRoundTrip(UintBits(0, 32), t);
  }

  /** A transfer request as TEP-74 lays it out: either address may be absent or of any workchain, a custom payload may
    * be there, and the forward payload stands inline or behind a reference. */
  function TransferCell(t: Transfer, custom: Option<Cell>, payload: Cell, inline: bool): Cell {
    Cell(UintBits(0x0f8a7ea5, 32) + (UintBits(t.queryId, 64) + (CoinsBits(t.amount) + (StdBits(t.dest)
         + (StdBits(t.response) + ([custom.Some?] + (CoinsBits(t.forward) + PayloadBits(payload, inline))))))),
         (if custom.Some? then [custom.value] else []) + PayloadRefs(payload, inline))
  }

  function PayloadBits(payload: Cell, inline: bool): seq<bool> { if inline then [false] + payload.bits else [true] }

  function PayloadRefs(payload: Cell, inline: bool): seq<Cell> { if inline then payload.refs else [payload] }

  lemma PayloadRead(payload: Cell, inline: bool)
    ensures LoadEither(Cell(PayloadBits(payload, inline), PayloadRefs(payload, inline))) == Some(payload)
  {
    if inline {
      LoadBitsOf([false], payload.bits, payload.refs);
    } else {
      assert [true] + [] == [true];
      LoadBitsOf([true], [], [payload]);
    }
  }

  predicate InRange(t: Transfer) {
    && t.queryId < Pow2(64) && t.amount < Pow2(120) && t.forward < Pow2(120)
    && (t.dest.Some? ==> t.dest.value.workchain < 256) && (t.response.Some? ==> t.response.value.workchain < 256)
  }

  /** Every such request is read, field by field, and the comment is that of its payload. */
  lemma TransferRead(t: Transfer, custom: Option<Cell>, payload: Cell, inline: bool)
    requires InRange(t) && t.comment == LoadComment(Some(payload))
    ensures ParseTransfer(TransferCell(t, custom, payload, inline)) == Some(t)
  {
    hide ParseTail, LoadUint, LoadStd, LoadCoins, StdBits, CoinsBits, UintBits, LoadComment, PayloadBits, Pow2;
    hide PayloadRefs, LoadEither, LoadMaybeRef;
    var refs := (if custom.Some? then [custom.value] else []) + PayloadRefs(payload, inline);
    var b5 := [custom.Some?] + (CoinsBits(t.forward) + PayloadBits(payload, inline));
    var b4 := StdBits(t.response) + b5;
    var b3 := StdBits(t.dest) + b4;
    var b2 := CoinsBits(t.amount) + b3;
    var b1 := UintBits(t.queryId, 64) + b2;
    Pow2Values();
    LoadUintOf(TRANSFER_OP, 32, b1, refs);
    LoadUintOf(t.queryId, 64, b2, refs);
    LoadCoinsOf(t.amount, b3, refs);
    LoadStdOf(t.dest, b4, refs);
    TailRead(t, custom, payload, inline);
  }

  lemma CustomRead(custom: Option<Cell>, rest: seq<bool>, refs: seq<Cell>)
    ensures LoadMaybeRef(Cell([custom.Some?] + rest, (if custom.Some? then [custom.value] else []) + refs))
         == Some(Loaded(custom, Cell(rest, refs)))
  {
    LoadBitsOf([custom.Some?], rest, (if custom.Some? then [custom.value] else []) + refs);
    assert custom.Some? ==> ([custom.value] + refs)[1..] == refs;
    assert [] + refs == refs;
  }

  lemma TailRead(t: Transfer, custom: Option<Cell>, payload: Cell, inline: bool)
    requires InRange(t)
    ensures ParseTail(Cell(StdBits(t.response) + ([custom.Some?] + (CoinsBits(t.forward)
              + PayloadBits(payload, inline))),
            (if custom.Some? then [custom.value] else []) + PayloadRefs(payload, inline)))
         == Some(Tail(t.response, t.forward, payload))
  {
    hide LoadStd, LoadCoins, StdBits, CoinsBits, UintBits, PayloadBits, LoadEither, LoadMaybeRef, PayloadRefs, Pow2;
    var own := PayloadRefs(payload, inline);
    var refs := (if custom.Some? then [custom.value] else []) + own;
    var b2 := CoinsBits(t.forward) + PayloadBits(payload, inline);
    LoadStdOf(t.response, [custom.Some?] + b2, refs);
    CustomRead(custom, b2, own);
    LoadCoinsOf(t.forward, PayloadBits(payload, inline), own);
    PayloadRead(payload, inline);
  }

  /** A built request is one without custom payload, both addresses in workchain 0, the comment as its payload. */
  lemma BuiltLayout(dest: Address, response: Address, amount: nat, forward: nat, queryId: nat, comment: Text)
    ensures BuildTransfer(dest, response, amount, forward, queryId, comment)
         == TransferCell(Transfer(queryId, amount, Some(Std(0, dest)), Some(Std(0, response)), forward, comment), None,
                         if comment == [] then Cell([], []) else BuildComment(comment), comment == [])
  {
    hide UintBits, CoinsBits, AddrBits, StdBits, BuildComment;
    PrintedStd(Some(dest));
    PrintedStd(Some(response));
  }

  /** Parsing a built transfer gives back every field, both addresses in workchain 0; every cell of it fits. */
  lemma TransferRoundTrip(dest: Address, response: Address, amount: nat, forward: nat, queryId: nat, comment: Text)
    requires amount < Pow2(120) && forward < Pow2(120) && queryId < Pow2(64)
    ensures var c := BuildTransfer(dest, response, amount, forward, queryId, comment);
      && Fits(c)
      && ParseTransfer(c)
           == Some(Transfer(queryId, amount, Some(Std(0, dest)), Some(Std(0, response)), forward, comment))
      && DecodeTransfer(c) == Some(JettonTransfer(amount, Some(dest), comment))
  {
    hide ParseTransfer, BuildComment, LoadComment, TransferCell, BuildTransfer, Pow2;
    var t := Transfer(queryId, amount, Some(Std(0, dest)), Some(Std(0, response)), forward, comment);
    if comment != [] { CommentRoundTrip(comment); } else { EmptyPayload(); }
    BuiltLayout(dest, response, amount, forward, queryId, comment);
    TransferRead(t, None, if comment == [] then Cell([], []) else BuildComment(comment), comment == []);
    BuiltFits(dest, response, amount, forward, queryId, comment);
  }

  lemma BuiltFits(dest: Address, response: Address, amount: nat, forward: nat, queryId: nat, comment: Text)
    requires amount < Pow2(120) && forward < Pow2(120)
    ensures Fits(BuildTransfer(dest, response, amount, forward, queryId, comment))
  {
    hide CoinsBits, LoadCoins, BuildComment, Pow2;
    CommentFits(comment);
    LoadCoinsOf(amount, [], []);
    LoadCoinsOf(forward, [], []);
  }

  /** A comment of anybody, cut into cells anyhow, is read; a body without 32 zero bits in front is no comment. */
  lemma CommentRead(parts: seq<Text>, body: Cell)
    requires parts != []
    ensures LoadComment(Some(Cell(UintBits(0, 32) + Chained(parts).bits, Chained(parts).refs))) == Joined(parts)
    ensures |body.bits| < 32 || body.bits[..32] != UintBits(0, 32) ==> LoadComment(Some(body)) == []
  {
    hide UintBits, BitsUint, LoadSnake, Chained;
    LoadUintOf(0, 32, Chained(parts).bits, Chained(parts).refs);
    ChainRead(parts);
    if |body.bits| >= 32 { BitsRoundTrip(body.bits[..32]); }
  }

  /** The empty inline payload reads as the empty comment. */
  lemma EmptyPayload()
    ensures LoadComment(Some(Cell([], []))) == []
  {}

  /** No comment body decodes as a transfer. */
  lemma CommentIsNotTransfer(t: Text)
    ensures DecodeTransfer(BuildComment(t)) == None
  {
    CommentHead(t);
  }

  // ---- Messages a proxy contract forwards ----

  /** int_msg_info flags, no source yet, destination, no value: the proxy attaches its whole balance. */
  function RouteBits(dest: Address, bounce: bool): seq<bool> {
    [false, true, bounce, false] + (AddrBits(None) + (AddrBits(Some(dest)) + CoinsBits(0)))
  }

  /** No extra currencies, no fees, no times, no state init. */
  function InfoBits(): seq<bool> {
    [false] + (CoinsBits(0) + (CoinsBits(0) + (UintBits(0, 64) + (UintBits(0, 32) + [false]))))
  }

  /** The message in a cell of its own; its body is stored inline or behind a reference. */
  function MessageCell(dest: Address, bounce: bool, body: Cell, inline: bool): Cell {
    if inline then Cell(RouteBits(dest, bounce) + (InfoBits() + ([false] + body.bits)), body.refs)
    else Cell(RouteBits(dest, bounce) + (InfoBits() + [true]), [body])
  }

  /** The body of a message to a proxy: nothing but a reference to the message to forward. */
  function ProxyBody(dest: Address, body: Cell, inline: bool): Cell {
    Cell([], [MessageCell(dest, true, body, inline)])
  }

  /** A message in a cell, as far as it is decoded. */
  datatype Forwarded = Forwarded(
    ihrDisabled: bool, bounce: bool, bounced: bool, src: Option<Std>, dest: Option<Std>, value: nat, body: Cell)

  function LoadMessage(c: Cell): Option<Forwarded> {
    var flags :- LoadBits(c, 4);
    if flags.value[0] then None
    else
      var src :- LoadStd(flags.rest);
      var dest :- LoadStd(src.rest);
      var value :- LoadCoins(dest.rest);
      var body :- LoadMessageBody(value.rest);
      Some(Forwarded(flags.value[1], flags.value[2], flags.value[3], src.value, dest.value, value.value, body))
  }

  function LoadMessageBody(c: Cell): Option<Cell> {
    var extra :- LoadMaybeRef(c);
    var ihr :- LoadCoins(extra.rest);
    var fwd :- LoadCoins(ihr.rest);
    var lt :- LoadUint(fwd.rest, 64);
    var at :- LoadUint(lt.rest, 32);
    var init :- LoadBits(at.rest, 1);
    if init.value[0] then None                            // the service wraps no state init
    else LoadEither(init.rest)
  }

  function LoadProxied(body: Cell): Option<Forwarded> {
    var r :- LoadRef(body);
    LoadMessage(r.value)
  }

  /** What lies between route and body is all zero: no currencies, fees or times. */
  lemma InfoLayout()
    ensures InfoBits() == seq(106, i => false)
  {
    ZeroBits(4);
    ZeroBits(0);
    ZeroBits(64);
    ZeroBits(32);
  }

  /** What a message says besides: other currencies, the fees and the times. */
  datatype Extras = Extras(currencies: Option<Cell>, ihrFee: nat, fwdFee: nat, lt: nat, at: nat)

  const NO_EXTRAS := Extras(None, 0, 0, 0, 0)

  predicate MessageInRange(m: Forwarded, x: Extras) {
    && m.value < Pow2(120) && x.ihrFee < Pow2(120) && x.fwdFee < Pow2(120) && x.lt < Pow2(64) && x.at < Pow2(32)
    && (m.src.Some? ==> m.src.value.workchain < 256) && (m.dest.Some? ==> m.dest.value.workchain < 256)
  }

  /** Any internal message without a state init, as it lies in a cell: route, value, ... */
  function MessageLayout(m: Forwarded, x: Extras, inline: bool): Cell {
    Cell([false, m.ihrDisabled, m.bounce, m.bounced] + (StdBits(m.src) + (StdBits(m.dest) + (CoinsBits(m.value)
         + ExtrasBits(m.body, x, inline)))),
         (if x.currencies.Some? then [x.currencies.value] else []) + PayloadRefs(m.body, inline))
  }

  /** ... other currencies, fees, times, no state init, body. */
  function ExtrasBits(body: Cell, x: Extras, inline: bool): seq<bool> {
    [x.currencies.Some?] + (CoinsBits(x.ihrFee) + (CoinsBits(x.fwdFee) + (UintBits(x.lt, 64) + (UintBits(x.at, 32)
    + ([false] + PayloadBits(body, inline))))))
  }

  /** Every such message is read as laid out. */
  lemma MessageRead(m: Forwarded, x: Extras, inline: bool)
    requires MessageInRange(m, x)
    ensures LoadMessage(MessageLayout(m, x, inline)) == Some(m)
  {
    hide LoadMessageBody, LoadBits, LoadStd, LoadCoins, StdBits, CoinsBits, ExtrasBits, Pow2, PayloadRefs;
    var refs := (if x.currencies.Some? then [x.currencies.value] else []) + PayloadRefs(m.body, inline);
    var b4 := ExtrasBits(m.body, x, inline);
    var b3 := CoinsBits(m.value) + b4;
    var b2 := StdBits(m.dest) + b3;
    var flags := [false, m.ihrDisabled, m.bounce, m.bounced];
    LoadBitsOf(flags, StdBits(m.src) + b2, refs);
    LoadStdOf(m.src, b2, refs);
    LoadStdOf(m.dest, b3, refs);
    LoadCoinsOf(m.value, b4, refs);
    MessageBodyRead(m, x, inline);
  }

  lemma MessageBodyRead(m: Forwarded, x: Extras, inline: bool)
    requires MessageInRange(m, x)
    ensures LoadMessageBody(Cell(ExtrasBits(m.body, x, inline),
              (if x.currencies.Some? then [x.currencies.value] else []) + PayloadRefs(m.body, inline))) == Some(m.body)
  {
    hide LoadCoins, CoinsBits, LoadUint, UintBits, LoadEither, LoadMaybeRef, Pow2, PayloadRefs, PayloadBits;
    var refs := PayloadRefs(m.body, inline);
    var b5 := [false] + PayloadBits(m.body, inline);
    var b4 := UintBits(x.at, 32) + b5;
    var b3 := UintBits(x.lt, 64) + b4;
    var b2 := CoinsBits(x.fwdFee) + b3;
    var b1 := CoinsBits(x.ihrFee) + b2;
    CustomRead(x.currencies, b1, refs);
    LoadCoinsOf(x.ihrFee, b2, refs);
    LoadCoinsOf(x.fwdFee, b3, refs);
    LoadUintOf(x.lt, 64, b4, refs);
    LoadUintOf(x.at, 32, b5, refs);
    LoadBitsOf([false], PayloadBits(m.body, inline), refs);
    PayloadRead(m.body, inline);
  }

  /** The message a proxy is to forward: IHR disabled, from nobody, without a value of its own. */
  function ToForward(dest: Address, bounce: bool, body: Cell): Forwarded {
    Forwarded(true, bounce, false, None, Some(Std(0, dest)), 0, body)
  }

  lemma ForwardLayout(dest: Address, bounce: bool, body: Cell, inline: bool)
    ensures MessageCell(dest, bounce, body, inline) == MessageLayout(ToForward(dest, bounce, body), NO_EXTRAS, inline)
  {
    hide UintBits, CoinsBits, AddrBits, StdBits, InfoBits, ExtrasBits, RouteBits;
    var tail := PayloadBits(body, inline);
    RouteLayout(dest, bounce, InfoBits() + tail);
    assert InfoBits() + tail == ExtrasBits(body, NO_EXTRAS, inline) by { ExtrasLayout(body, inline); }
  }

  lemma RouteLayout(dest: Address, bounce: bool, rest: seq<bool>)
    ensures RouteBits(dest, bounce) + rest == [false, true, bounce, false] + (StdBits(None)
         + (StdBits(Some(Std(0, dest))) + (CoinsBits(0) + rest)))
  {
    hide UintBits, CoinsBits, AddrBits, StdBits;
    PrintedStd(None);
    PrintedStd(Some(dest));
  }

  lemma ExtrasLayout(body: Cell, inline: bool)
    ensures InfoBits() + PayloadBits(body, inline) == ExtrasBits(body, NO_EXTRAS, inline)
  {
    hide UintBits, CoinsBits, PayloadBits;
  }

  lemma MessageRoundTrip(dest: Address, bounce: bool, body: Cell, inline: bool)
    ensures LoadMessage(MessageCell(dest, bounce, body, inline)) == Some(ToForward(dest, bounce, body))
  {
    hide LoadMessage, MessageCell, MessageLayout, Pow2;
    ForwardLayout(dest, bounce, body, inline);
    assert Pow2(120) > 0 && Pow2(64) > 0 && Pow2(32) > 0;
    MessageRead(ToForward(dest, bounce, body), NO_EXTRAS, inline);
  }

  /** What a proxy receives is the forwarded message again, and never reads as a transfer itself. */
  lemma ProxyRoundTrip(dest: Address, body: Cell, inline: bool)
    ensures LoadProxied(ProxyBody(dest, body, inline))
         == Some(Forwarded(true, true, false, None, Some(Std(0, dest)), 0, body))
    ensures DecodeTransfer(ProxyBody(dest, body, inline)) == None
  {
    MessageRoundTrip(dest, true, body, inline);
  }

  /** A wrapped transfer survives both layers. */
  lemma ProxiedTransferRoundTrip(wallet: Address, dest: Address, amount: nat, forward: nat, queryId: nat, comment: Text,
                                 inline: bool)
    requires amount < Pow2(120) && forward < Pow2(120) && queryId < Pow2(64)
    ensures var m := LoadProxied(ProxyBody(wallet, BuildTransfer(dest, dest, amount, forward, queryId, comment),
      inline));
      && m.Some? && m.value.dest == Some(Std(0, wallet))
      && DecodeTransfer(m.value.body) == Some(JettonTransfer(amount, Some(dest), comment))
  {
    ProxyRoundTrip(wallet, BuildTransfer(dest, dest, amount, forward, queryId, comment), inline);
    TransferRoundTrip(dest, dest, amount, forward, queryId, comment);
  }
}
