/** Building one highload batch: three loops over service, internal and external tasks that reserve
  * balances in place and collect messages. */
module Batch {
  import opened Base
  import opened Cells
  import opened Codec
  import opened Uuids

  const TRANSFER_TON: nat := 100_000_000
  const FORWARD_TON: nat := 20_000_000

  /** What the builder is told by the address book, the configuration and the chain. */
  datatype World = World(
    book: AddressBook,
    hot: Address,
    jettonHot: map<Currency, Address>,          // our wallet of each configured jetton
    cutoff: map<Currency, nat>,                 // smallest jetton balance left on a deposit
    proxy: nat -> Address,                      // proxy contract of a subwallet
    walletOf: (Address, Address) -> Address,    // jetton wallet of an owner and a master
    tonBalance: Address -> nat,
    jettonBalance: Address -> nat,
    serviceQueryId: nat -> nat,                 // random query ids, drawn per service task ...
    queryId: nat -> nat,                        // ... and per internal task
    inline: Cell -> bool,                       // whether a wrapped body is stored inline
    memo: nat -> Uuid)                          // fresh UUIDs

  datatype ServiceWithdrawal = ServiceWithdrawal(task: ServiceTask, tonAmount: nat, filled: bool)

  datatype InternalWithdrawalPlan = InternalWithdrawalPlan(task: InternalTask, memo: Uuid)

  datatype Withdrawals = Withdrawals(
    messages: seq<Msg>,
    external: seq<ExternalTask>,
    internals: seq<InternalWithdrawalPlan>,
    service: seq<ServiceWithdrawal>)

  // ---- Balances ----

  type Amounts = map<Currency, int>

  /** What one task may take from the snapshot: an amount, plus gas when it is a jetton. */
  predicate Affordable(b: Amounts, cur: Currency, amount: int)
    requires Ton in b && cur in b
  {
    b[cur] >= amount && (cur != Ton ==> b[Ton] >= TRANSFER_TON)
  }

  function Taken(cur: Currency, amount: int, of: Currency): int {
    (if of == cur then amount else 0) + (if of == Ton && cur != Ton then TRANSFER_TON else 0)
  }

  /** The hot wallet balances of one tick. */
  class Balances {
    var amounts: Amounts

    constructor (snapshot: Amounts)
      ensures amounts == snapshot
    {
      amounts := snapshot;
    }

    /** True, and nothing changes, when the reservation is not covered; otherwise jetton and gas go together. */
    method Decrease(cur: Currency, amount: int) returns (short: bool)
      requires Ton in amounts && cur in amounts
      modifies this
      ensures short <==> !Affordable(old(amounts), cur, amount)
      ensures amounts.Keys == old(amounts).Keys
      ensures short ==> amounts == old(amounts)
      ensures !short ==> forall c :: c in amounts ==> amounts[c] == old(amounts)[c] - Taken(cur, amount, c)
    {
      if cur == Ton {
        if amounts[Ton] < amount { return true; }
        amounts := amounts[Ton := amounts[Ton] - amount];
        return false;
      }
      if amounts[cur] < amount || amounts[Ton] < TRANSFER_TON { return true; }
      amounts := amounts[cur := amounts[cur] - amount];
      amounts := amounts[Ton := amounts[Ton] - TRANSFER_TON];
      return false;
    }
  }

  /** TON attached to a list of messages. */
  function CarriedTon(msgs: seq<Msg>): nat {
    if msgs == [] then 0 else CarriedTon(msgs[..|msgs| - 1]) + msgs[|msgs| - 1].value
  }

  /** Units of a jetton sent by a list of external tasks. */
  function CarriedJetton(tasks: seq<ExternalTask>, cur: Currency): nat {
    if tasks == [] then 0
    else
      var last := tasks[|tasks| - 1];
      CarriedJetton(tasks[..|tasks| - 1], cur) + if last.currency == cur then last.amount else 0
  }

  /** What the reservations made so far took from a currency. */
  function Reserved(log: seq<(Currency, int)>, of: Currency): int {
    if log == [] then 0 else Reserved(log[..|log| - 1], of) + Taken(log[|log| - 1].0, log[|log| - 1].1, of)
  }

  /** The budget: nothing is overdrawn, every reservation is accounted for, and the messages carry no more than was
    * reserved. */
  ghost predicate WithinBudget(snapshot: Amounts, left: Amounts, log: seq<(Currency, int)>, w: Withdrawals) {
    && left.Keys == snapshot.Keys && Ton in left
    && (forall c :: c in left ==> left[c] >= 0 && left[c] == snapshot[c] - Reserved(log, c))
    && CarriedTon(w.messages) <= Reserved(log, Ton)
    && forall c :: c in left && c != Ton ==> CarriedJetton(w.external, c) <= Reserved(log, c)
  }

  // ---- Messages ----

  /** The identity of a message in its batch: a transfer's destination, any other message's own. */
  function KeyOf(m: Msg): Option<Address> {
    match DecodeTransfer(m.body)
    case Some(t) => t.dest
    case None => m.dest
  }

  function Uint64(n: int): nat { n % 0x1_0000_0000_0000_0000 }

  function BuildExternal(w: World, t: ExternalTask): Msg
    requires t.currency == Ton || t.currency in w.jettonHot
  {
    if t.currency == Ton then Msg(Some(t.dest), t.amount, BuildComment(t.comment))
    else Msg(Some(w.jettonHot[t.currency]), TRANSFER_TON,
             BuildTransfer(t.dest, w.hot, t.amount, FORWARD_TON, Uint64(t.queryId), t.comment))
  }

  function BuildProxyTransfer(w: World, proxy: Address, jettonWallet: Address, forward: nat, amount: nat, queryId: nat,
                              comment: Text): Msg {
    var body := BuildTransfer(w.hot, w.hot, amount, forward, queryId, comment);
    Msg(Some(proxy), TRANSFER_TON, ProxyBody(jettonWallet, body, w.inline(body)))
  }

  /** Some: the message and its record. None: a rejected withdrawal, only its record. */
  function BuildService(w: World, t: ServiceTask, n: nat): (Option<Msg>, ServiceWithdrawal)
    requires t.deposit in w.book && (w.book[t.deposit] == TonDeposit ==> t.master.Some?)
  {
    if w.book[t.deposit] == TonDeposit then
      var balance := w.jettonBalance(w.walletOf(t.deposit, t.master.value));
      if balance == 0 then (None, ServiceWithdrawal(t, 0, false))
      else (Some(Msg(Some(t.deposit), TRANSFER_TON, BuildComment(PrintUuid(t.memo)))),
            ServiceWithdrawal(t.(jettonAmount := balance), 0, true))
    else if t.master.None? then
      var balance := w.tonBalance(w.proxy(t.subwallet));
      (if balance == 0 then None
       else Some(Msg(Some(w.proxy(t.subwallet)), TRANSFER_TON,
         ProxyBody(w.hot, BuildComment(PrintUuid(t.memo)), w.inline(BuildComment(PrintUuid(t.memo)))))),
       ServiceWithdrawal(t, balance, false))
    else
      var jw := w.walletOf(w.proxy(t.subwallet), t.master.value);
      var balance := w.jettonBalance(jw);
      if jw in w.book || balance == 0 then (None, ServiceWithdrawal(t, 0, false))
      else (Some(BuildProxyTransfer(w, w.proxy(t.subwallet), jw, 0, balance, w.serviceQueryId(n), PrintUuid(t.memo))),
            ServiceWithdrawal(t.(jettonAmount := balance), 0, false))
  }

  function BuildInternal(w: World, t: InternalTask, n: nat): Option<Msg>
    requires t.currency in w.cutoff
  {
    var balance := w.jettonBalance(t.deposit);
    if balance > w.cutoff[t.currency] then
      Some(BuildProxyTransfer(w, w.proxy(t.subwallet), t.deposit, FORWARD_TON, balance, w.queryId(n),
        PrintUuid(w.memo(n))))
    else None
  }

  // ---- What each kind of message means to the scanner ----

  predicate ServiceMessage(w: World, t: ServiceTask, m: Msg) {
    && m.dest == Some(t.deposit) && m.value == TRANSFER_TON && DecodeTransfer(m.body) == None
    && t.deposit in w.book && w.book[t.deposit] in {TonDeposit, JettonOwner}
    && (w.book[t.deposit] == JettonOwner ==>
          var inner := LoadProxied(m.body);
          inner.Some? && inner.value.dest.Some?
          && !(inner.value.dest.value.address in w.book && w.book[inner.value.dest.value.address] == JettonDeposit))
  }

  predicate InternalMessage(w: World, p: InternalWithdrawalPlan, m: Msg) {
    var owner := w.proxy(p.task.subwallet);
    var inner := LoadProxied(m.body);
    && m.dest == Some(owner) && m.value == TRANSFER_TON && DecodeTransfer(m.body) == None
    && owner in w.book && w.book[owner] == JettonOwner
    && inner.Some? && inner.value.dest == Some(Std(0, p.task.deposit))
    && p.task.deposit in w.book && w.book[p.task.deposit] == JettonDeposit
    && DecodeTransfer(inner.value.body) ==
         Some(JettonTransfer(w.jettonBalance(p.task.deposit), Some(w.hot), PrintUuid(p.memo)))
  }

  predicate ExternalMessage(w: World, t: ExternalTask, m: Msg) {
    && t.dest !in w.book && m.dest.Some?
    && if t.currency == Ton then
         m.dest == Some(t.dest) && m.value == t.amount && DecodeTransfer(m.body) == None
           && LoadComment(Some(m.body)) == t.comment
       else
         && m.value == TRANSFER_TON && m.dest.value in w.book && w.book[m.dest.value] == JettonHot
         && DecodeTransfer(m.body) == Some(JettonTransfer(t.amount, Some(t.dest), t.comment))
  }

  /** Messages come in the order service, internal, external, one per recorded withdrawal. */
  ghost predicate Described(w: World, b: Withdrawals) {
    var s, i, e := |b.service|, |b.internals|, |b.external|;
    && |b.messages| == s + i + e
    && (forall k :: 0 <= k < s ==> ServiceMessage(w, b.service[k].task, b.messages[k]))
    && (forall k :: 0 <= k < i ==> InternalMessage(w, b.internals[k], b.messages[s + k]))
    && (forall k :: 0 <= k < e ==> ExternalMessage(w, b.external[k], b.messages[s + i + k]))
  }

  ghost predicate DistinctKeys(msgs: seq<Msg>) {
    && (forall m :: m in msgs ==> KeyOf(m).Some?)
    && forall i, j :: 0 <= i < j < |msgs| ==> KeyOf(msgs[i]) != KeyOf(msgs[j])
  }

  // ---- What the builder may rely on ----

  /** The book agrees with the derived addresses, and amounts are of the sizes the chain can carry. */
  ghost predicate Consistent(w: World) {
    && w.hot in w.book && w.book[w.hot] == TonHot
    && Ton !in w.jettonHot
    && (forall c :: c in w.jettonHot ==> w.jettonHot[c] in w.book && w.book[w.jettonHot[c]] == JettonHot)
    && (forall a :: w.jettonBalance(a) < Pow2(120))
    && (forall n :: w.queryId(n) < Pow2(64)) && (forall n :: w.serviceQueryId(n) < Pow2(64))
  }

  ghost predicate ServiceTaskOk(w: World, t: ServiceTask) {
    t.deposit in w.book ==>
      && (w.book[t.deposit] == TonDeposit ==> t.master.Some?)
      && (w.book[t.deposit] == JettonOwner ==> w.proxy(t.subwallet) == t.deposit)
  }

  predicate ServiceAddress(w: World, a: Address) {
    a in w.book && w.book[a] in {TonDeposit, JettonOwner}
  }

  ghost predicate ServiceTasksOk(w: World, ts: seq<ServiceTask>) {
    && (forall k :: 0 <= k < |ts| ==> ServiceTaskOk(w, ts[k]))
    && forall i, j :: 0 <= i < j < |ts| ==> ts[i].deposit != ts[j].deposit
  }

  predicate InternalTaskOk(w: World, t: InternalTask) {
    && t.currency in w.cutoff
    && t.deposit in w.book && w.book[t.deposit] == JettonDeposit
    && w.proxy(t.subwallet) in w.book && w.book[w.proxy(t.subwallet)] == JettonOwner
  }

  ghost predicate InternalTasksOk(w: World, ts: seq<InternalTask>) {
    && (forall k :: 0 <= k < |ts| ==> InternalTaskOk(w, ts[k]))
    && forall i, j :: 0 <= i < j < |ts| ==> w.proxy(ts[i].subwallet) != w.proxy(ts[j].subwallet)
  }

  predicate ExternalTaskOk(w: World, t: ExternalTask) {
    && t.amount < Pow2(120)
    && (t.currency == Ton || t.currency in w.jettonHot)
  }

  ghost predicate ExternalTasksOk(w: World, ts: seq<ExternalTask>) {
    && (forall k :: 0 <= k < |ts| ==> ExternalTaskOk(w, ts[k]))
    && forall i, j :: 0 <= i < j < |ts| ==> ts[i].dest != ts[j].dest
  }

  lemma SmallConstants(n: int)
    ensures FORWARD_TON < Pow2(120) && Uint64(n) < Pow2(64)
  {
    hide Pow2;
    Pow2Values();
    Pow2Add(32, 88);
  }

  // ---- Each built message means what it should ----

  lemma ServiceMeaning(w: World, t: ServiceTask, n: nat)
    requires Consistent(w) && ServiceTaskOk(w, t) && ServiceAddress(w, t.deposit)
    ensures var (m, r) := BuildService(w, t, n);
      if m.Some? then
        && ServiceMessage(w, r.task, m.value) && r.task.deposit == t.deposit && r.task.memo == t.memo
        && KeyOf(m.value) == Some(t.deposit) && m.value.value == TRANSFER_TON
      else r.task == t && !r.filled
  {
    var p := w.proxy(t.subwallet);
    hide LoadProxied, BuildTransfer, ProxyBody, BuildComment, DecodeTransfer, PrintUuid;
    CommentIsNotTransfer(PrintUuid(t.memo));
    if w.book[t.deposit] == JettonOwner {
      if t.master.None? {
        ProxyRoundTrip(w.hot, BuildComment(PrintUuid(t.memo)), w.inline(BuildComment(PrintUuid(t.memo))));
      } else {
        var jw := w.walletOf(p, t.master.value);
        var body := BuildTransfer(w.hot, w.hot, w.jettonBalance(jw), 0, w.serviceQueryId(n), PrintUuid(t.memo));
        ProxyRoundTrip(jw, body, w.inline(body));
      }
    }
  }

  lemma InternalMeaning(w: World, t: InternalTask, n: nat)
    requires Consistent(w) && InternalTaskOk(w, t)
    ensures BuildInternal(w, t, n).Some? <==> w.jettonBalance(t.deposit) > w.cutoff[t.currency]
    ensures var m := BuildInternal(w, t, n);
      m.Some? ==>
        && InternalMessage(w, InternalWithdrawalPlan(t, w.memo(n)), m.value)
        && KeyOf(m.value) == Some(w.proxy(t.subwallet)) && m.value.value == TRANSFER_TON
  {
    hide Pow2, DecodeTransfer, LoadProxied, BuildTransfer, ProxyBody, PrintUuid;
    var balance := w.jettonBalance(t.deposit);
    SmallConstants(0);
    var body := BuildTransfer(w.hot, w.hot, balance, FORWARD_TON, w.queryId(n), PrintUuid(w.memo(n)));
    ProxyRoundTrip(t.deposit, body, w.inline(body));
    TransferRoundTrip(w.hot, w.hot, balance, FORWARD_TON, w.queryId(n), PrintUuid(w.memo(n)));
  }

  lemma ExternalMeaning(w: World, t: ExternalTask)
    requires Consistent(w) && ExternalTaskOk(w, t) && t.dest !in w.book
    ensures ExternalMessage(w, t, BuildExternal(w, t)) && KeyOf(BuildExternal(w, t)) == Some(t.dest)
    ensures BuildExternal(w, t).value == if t.currency == Ton then t.amount else TRANSFER_TON
  {
    hide Pow2, DecodeTransfer, BuildTransfer, BuildComment, LoadComment, Uint64;
    if t.currency == Ton {
      CommentIsNotTransfer(t.comment);
      CommentRoundTrip(t.comment);
    } else {
      SmallConstants(t.queryId);
      TransferRoundTrip(t.dest, w.hot, t.amount, FORWARD_TON, Uint64(t.queryId), t.comment);
    }
  }

  // ---- ... and carries exactly what it should ----

  /** The jetton request of an external task, field by field. */
  lemma ExternalContents(w: World, t: ExternalTask)
    requires ExternalTaskOk(w, t) && t.currency != Ton
    ensures var m := BuildExternal(w, t);
      && m.dest == Some(w.jettonHot[t.currency]) && m.value == TRANSFER_TON
      && ParseTransfer(m.body) ==
           Some(Transfer(t.queryId % 0x1_0000_0000_0000_0000, t.amount, Some(Std(0, t.dest)), Some(Std(0, w.hot)),
                         20_000_000, t.comment))
  {
    hide Pow2, ParseTransfer, BuildTransfer;
    SmallConstants(t.queryId);
    TransferRoundTrip(t.dest, w.hot, t.amount, FORWARD_TON, Uint64(t.queryId), t.comment);
  }

  /** The whole balance of the deposit, to the hot wallet, which also gets the excess, under the memo. */
  lemma InternalContents(w: World, t: InternalTask, n: nat)
    requires Consistent(w) && InternalTaskOk(w, t) && BuildInternal(w, t, n).Some?
    ensures var inner := LoadProxied(BuildInternal(w, t, n).value.body);
      && inner.Some? && inner.value == ToForward(t.deposit, true, inner.value.body)
      && ParseTransfer(inner.value.body)
           == Some(Transfer(w.queryId(n), w.jettonBalance(t.deposit), Some(Std(0, w.hot)), Some(Std(0, w.hot)),
             20_000_000, PrintUuid(w.memo(n))))
  {
    hide Pow2, ParseTransfer, LoadProxied, BuildTransfer, ProxyBody, PrintUuid;
    var balance := w.jettonBalance(t.deposit);
    SmallConstants(0);
    var body := BuildTransfer(w.hot, w.hot, balance, FORWARD_TON, w.queryId(n), PrintUuid(w.memo(n)));
    ProxyRoundTrip(t.deposit, body, w.inline(body));
    TransferRoundTrip(w.hot, w.hot, balance, FORWARD_TON, w.queryId(n), PrintUuid(w.memo(n)));
  }

  /** The balance a service request is about: jettons of a deposit, TON or foreign jettons of a proxy. */
  function ServiceBalance(w: World, t: ServiceTask): nat
    requires t.deposit in w.book && (w.book[t.deposit] == TonDeposit ==> t.master.Some?)
  {
    if w.book[t.deposit] == TonDeposit then w.jettonBalance(w.walletOf(t.deposit, t.master.value))
    else if t.master.None? then w.tonBalance(t.deposit)
    else w.jettonBalance(w.walletOf(t.deposit, t.master.value))
  }

  /** Our own jetton wallets are never emptied this way. */
  predicate Foreign(w: World, t: ServiceTask)
    requires t.deposit in w.book
  {
    w.book[t.deposit] == TonDeposit || t.master.None? || w.walletOf(t.deposit, t.master.value) !in w.book
  }

  /** When a service request gets a message, what the message carries, and what is recorded of it. */
  lemma ServiceContents(w: World, t: ServiceTask, n: nat)
    requires Consistent(w) && ServiceTaskOk(w, t) && ServiceAddress(w, t.deposit)
    ensures var (m, r) := BuildService(w, t, n);
      && (m.Some? <==> ServiceBalance(w, t) > 0 && Foreign(w, t))
      && (r.filled <==> m.Some? && w.book[t.deposit] == TonDeposit)
      && (m.None? ==> r == ServiceWithdrawal(t, 0, false))
      && (m.Some? && t.master.Some? ==> r.task == t.(jettonAmount := ServiceBalance(w, t)) && r.tonAmount == 0)
      && (m.Some? && t.master.None? ==> r.task == t && r.tonAmount == ServiceBalance(w, t))
      && (m.Some? && r.filled ==> LoadComment(Some(m.value.body)) == PrintUuid(t.memo))
      && (m.Some? && !r.filled ==>
            var inner := LoadProxied(m.value.body);
            && inner.Some?
            && if t.master.None? then inner.value == ToForward(w.hot, true, inner.value.body)
                 && LoadComment(Some(inner.value.body)) == PrintUuid(t.memo)
               else
                 && inner.value == ToForward(w.walletOf(t.deposit, t.master.value), true, inner.value.body)
                 && ParseTransfer(inner.value.body)
                      == Some(Transfer(w.serviceQueryId(n), ServiceBalance(w, t), Some(Std(0, w.hot)),
                        Some(Std(0, w.hot)), 0, PrintUuid(t.memo))))
  {
    hide Pow2, ParseTransfer, LoadProxied, BuildTransfer, ProxyBody, LoadComment, BuildComment, DecodeTransfer,
         PrintUuid;
    CommentRoundTrip(PrintUuid(t.memo));
    if w.book[t.deposit] == JettonOwner {
      if t.master.None? {
        ProxyRoundTrip(w.hot, BuildComment(PrintUuid(t.memo)), w.inline(BuildComment(PrintUuid(t.memo))));
      } else {
        var jw := w.walletOf(t.deposit, t.master.value);
        var body := BuildTransfer(w.hot, w.hot, w.jettonBalance(jw), 0, w.serviceQueryId(n), PrintUuid(t.memo));
        ProxyRoundTrip(jw, body, w.inline(body));
        TransferRoundTrip(w.hot, w.hot, w.jettonBalance(jw), 0, w.serviceQueryId(n), PrintUuid(t.memo));
      }
    }
  }

  // ---- One appended message ----

  lemma AppendDistinct(msgs: seq<Msg>, m: Msg)
    requires DistinctKeys(msgs) && KeyOf(m).Some?
    requires forall n :: n in msgs ==> KeyOf(n) != KeyOf(m)
    ensures DistinctKeys(msgs + [m])
  {
    var all := msgs + [m];
    forall i, j | 0 <= i < j < |all| ensures KeyOf(all[i]) != KeyOf(all[j]) {
      if j == |msgs| { assert all[i] in msgs; }
    }
  }

  /** A reservation keeps the budget when what it adds to the messages is at most what it took. */
  lemma BudgetAfter(snapshot: Amounts, left: Amounts, log: seq<(Currency, int)>, r: Withdrawals,
                    cur: Currency, amount: int, left': Amounts, r': Withdrawals)
    requires WithinBudget(snapshot, left, log, r) && cur in left && amount >= 0 && Affordable(left, cur, amount)
    requires left'.Keys == left.Keys && forall c :: c in left' ==> left'[c] == left[c] - Taken(cur, amount, c)
    requires CarriedTon(r'.messages) <= CarriedTon(r.messages) + Taken(cur, amount, Ton)
    requires forall c :: CarriedJetton(r'.external, c) <= CarriedJetton(r.external, c) + if c == cur then amount else 0
    ensures WithinBudget(snapshot, left', log + [(cur, amount)], r')
  {
    var log' := log + [(cur, amount)];
    assert log'[..|log|] == log;
    forall c ensures Reserved(log', c) == Reserved(log, c) + Taken(cur, amount, c) {}
  }

  lemma {:induction false} CarriedTonAfter(msgs: seq<Msg>, m: Msg)
    ensures CarriedTon(msgs + [m]) == CarriedTon(msgs) + m.value
  {
    assert (msgs + [m])[..|msgs|] == msgs;
  }

  lemma CarriedAfter(r: Withdrawals, m: Msg, t: ExternalTask)
    ensures CarriedTon(r.messages + [m]) == CarriedTon(r.messages) + m.value
    ensures forall c ::
      CarriedJetton(r.external + [t], c) == CarriedJetton(r.external, c) + if t.currency == c then t.amount else 0
  {
    assert (r.messages + [m])[..|r.messages|] == r.messages;
    assert (r.external + [t])[..|r.external|] == r.external;
  }

  lemma DescribedAfterService(w: World, r: Withdrawals, m: Msg, x: ServiceWithdrawal)
    requires Described(w, r) && r.internals == [] && r.external == [] && ServiceMessage(w, x.task, m)
    ensures Described(w, r.(messages := r.messages + [m], service := r.service + [x]))
  {
    hide ServiceMessage, InternalMessage, ExternalMessage;
  }

  lemma DescribedAfterInternal(w: World, r: Withdrawals, m: Msg, p: InternalWithdrawalPlan)
    requires Described(w, r) && r.external == [] && InternalMessage(w, p, m)
    ensures Described(w, r.(messages := r.messages + [m], internals := r.internals + [p]))
  {
    hide ServiceMessage, InternalMessage, ExternalMessage;
    var r' := r.(messages := r.messages + [m], internals := r.internals + [p]);
    var s := |r.service|;
    forall k | 0 <= k < |r'.internals| ensures InternalMessage(w, r'.internals[k], r'.messages[s + k]) {
      if k < |r.internals| { assert InternalMessage(w, r.internals[k], r.messages[s + k]); }
    }
    forall k | 0 <= k < s ensures ServiceMessage(w, r'.service[k].task, r'.messages[k]) {
      assert ServiceMessage(w, r.service[k].task, r.messages[k]);
    }
  }

  lemma DescribedAfterExternal(w: World, r: Withdrawals, m: Msg, t: ExternalTask)
    requires Described(w, r) && ExternalMessage(w, t, m)
    ensures Described(w, r.(messages := r.messages + [m], external := r.external + [t]))
  {
    hide ServiceMessage, InternalMessage, ExternalMessage;
    var r' := r.(messages := r.messages + [m], external := r.external + [t]);
    var s, i := |r.service|, |r.internals|;
    forall k | 0 <= k < |r'.external| ensures ExternalMessage(w, r'.external[k], r'.messages[s + i + k]) {
      if k < |r.external| { assert ExternalMessage(w, r.external[k], r.messages[s + i + k]); }
    }
    forall k | 0 <= k < i ensures InternalMessage(w, r'.internals[k], r'.messages[s + k]) {
      assert InternalMessage(w, r.internals[k], r.messages[s + k]);
    }
    forall k | 0 <= k < s ensures ServiceMessage(w, r'.service[k].task, r'.messages[k]) {
      assert ServiceMessage(w, r.service[k].task, r.messages[k]);
    }
  }

  /** Every key in a described batch is a service address, a proxy or an external destination. */
  lemma KeyOrigin(w: World, r: Withdrawals, n: Msg)
    requires Described(w, r) && n in r.messages
    ensures
      || (exists x :: x in r.service && KeyOf(n) == Some(x.task.deposit) && x.task.deposit in w.book)
      || (exists p :: p in r.internals && KeyOf(n) == Some(w.proxy(p.task.subwallet))
           && w.proxy(p.task.subwallet) in w.book)
      || (exists t :: t in r.external && KeyOf(n) == Some(t.dest) && t.dest !in w.book)
  {
    hide DecodeTransfer, LoadProxied, LoadComment;
    var k :| 0 <= k < |r.messages| && r.messages[k] == n;
    var s, i := |r.service|, |r.internals|;
    if k < s {
      assert ServiceMessage(w, r.service[k].task, n);
      assert r.service[k] in r.service;
    } else if k < s + i {
      assert InternalMessage(w, r.internals[k - s], r.messages[s + (k - s)]);
      assert r.internals[k - s] in r.internals;
    } else {
      assert ExternalMessage(w, r.external[k - s - i], r.messages[s + i + (k - s - i)]);
      assert r.external[k - s - i] in r.external;
    }
  }

  lemma StartDistinct()
    ensures DistinctKeys([])
  {}

  // ---- Which task got which message ----

  /** What the builder did with a service task, an internal and an external one. */
  predicate IsService(w: World, t: ServiceTask, n: nat, m: Option<Msg>, x: ServiceWithdrawal) {
    && t.deposit in w.book && (w.book[t.deposit] == TonDeposit ==> t.master.Some?)
    && BuildService(w, t, n) == (m, x)
  }

  predicate IsInternal(w: World, t: InternalTask, n: nat, m: Msg, p: InternalWithdrawalPlan) {
    t.currency in w.cutoff && p == InternalWithdrawalPlan(t, w.memo(n)) && BuildInternal(w, t, n) == Some(m)
  }

  predicate IsExternal(w: World, t: ExternalTask, m: Msg, x: ExternalTask) {
    x == t && (t.currency == Ton || t.currency in w.jettonHot) && m == BuildExternal(w, t)
  }

  ghost predicate ServiceBuilt(w: World, tasks: seq<ServiceTask>, at: seq<nat>, r: Withdrawals) {
    && |at| == |r.service| <= |r.messages| && InTurn(at, |tasks|)
    && forall k :: 0 <= k < |at| ==> IsService(w, tasks[at[k]], at[k], Some(r.messages[k]), r.service[k])
  }

  ghost predicate ServiceRefused(w: World, tasks: seq<ServiceTask>, at: seq<nat>, rejected: seq<ServiceWithdrawal>) {
    && |at| == |rejected| && InTurn(at, |tasks|)
    && forall k :: 0 <= k < |at| ==> IsService(w, tasks[at[k]], at[k], None, rejected[k])
  }

  ghost predicate InternalBuilt(w: World, tasks: seq<InternalTask>, at: seq<nat>, r: Withdrawals) {
    && |at| == |r.internals| && |r.service| + |at| <= |r.messages| && InTurn(at, |tasks|)
    && forall k :: 0 <= k < |at| ==>
         IsInternal(w, tasks[at[k]], at[k], r.messages[|r.service| + k], r.internals[k])
  }

  ghost predicate ExternalBuilt(w: World, tasks: seq<ExternalTask>, at: seq<nat>, r: Withdrawals) {
    var base := |r.service| + |r.internals|;
    && |at| == |r.external| && base + |at| <= |r.messages| && InTurn(at, |tasks|)
    && forall k :: 0 <= k < |at| ==> IsExternal(w, tasks[at[k]], r.messages[base + k], r.external[k])
  }

  /** Which tasks of the three lists got a message, and which service tasks were refused. */
  datatype Turns = Turns(service: seq<nat>, refused: seq<nat>, internals: seq<nat>, external: seq<nat>)

  ghost predicate Injective<T(!new)>(f: nat -> T) { forall i: nat, j: nat :: f(i) == f(j) ==> i == j }

  predicate DistinctMemos(b: Withdrawals) {
    forall k, l :: 0 <= k < l < |b.internals| ==> b.internals[k].memo != b.internals[l].memo
  }

  /** With fresh UUIDs no two internal tasks of a batch share a memo. */
  lemma MemosAreDistinct(w: World, tasks: seq<InternalTask>, at: seq<nat>, r: Withdrawals)
    requires Injective(w.memo) && InternalBuilt(w, tasks, at, r)
    ensures DistinctMemos(r)
  {
    hide BuildInternal;
    forall k, l | 0 <= k < l < |r.internals| ensures r.internals[k].memo != r.internals[l].memo {
      assert IsInternal(w, tasks[at[k]], at[k], r.messages[|r.service| + k], r.internals[k]);
      assert IsInternal(w, tasks[at[l]], at[l], r.messages[|r.service| + l], r.internals[l]);
    }
  }

  /** The query id of the request inside a proxy message. */
  function WrappedQueryId(m: Msg): Option<nat> {
    var inner :- LoadProxied(m.body);
    var t :- ParseTransfer(inner.body);
    Some(t.queryId)
  }

  /** Each internal message carries the memo of its plan and a query id of its own draw. */
  lemma QueryIdsAreOwn(w: World, tasks: seq<InternalTask>, at: seq<nat>, r: Withdrawals, k: nat)
    requires Consistent(w) && InternalTasksOk(w, tasks) && InternalBuilt(w, tasks, at, r) && k < |at|
    ensures WrappedQueryId(r.messages[|r.service| + k]) == Some(w.queryId(at[k]))
  {
    hide BuildInternal, LoadProxied, ParseTransfer;
    assert IsInternal(w, tasks[at[k]], at[k], r.messages[|r.service| + k], r.internals[k]);
    assert InternalTaskOk(w, tasks[at[k]]);
    InternalContents(w, tasks[at[k]], at[k]);
  }

  /** Each loop so far: its messages come last. */
  ghost predicate ServiceSoFar(w: World, tasks: seq<ServiceTask>, at: seq<nat>, no: seq<nat>, r: Withdrawals,
                               rejected: seq<ServiceWithdrawal>) {
    |r.messages| == |r.service| == |at| && ServiceBuilt(w, tasks, at, r) && ServiceRefused(w, tasks, no, rejected)
  }

  ghost predicate InternalSoFar(w: World, tasks: seq<InternalTask>, at: seq<nat>, acc: Withdrawals, r: Withdrawals) {
    && |r.messages| == |r.service| + |r.internals| && InternalBuilt(w, tasks, at, r)
    && acc.messages <= r.messages && |r.messages| == |acc.messages| + |at|
  }

  ghost predicate ExternalSoFar(w: World, tasks: seq<ExternalTask>, at: seq<nat>, acc: Withdrawals, r: Withdrawals) {
    && |r.messages| == |r.service| + |r.internals| + |r.external| && ExternalBuilt(w, tasks, at, r)
    && acc.messages <= r.messages && |r.messages| == |acc.messages| + |at|
  }

  lemma ServiceIs(w: World, t: ServiceTask, n: nat)
    requires t.deposit in w.book && (w.book[t.deposit] == TonDeposit ==> t.master.Some?)
    ensures IsService(w, t, n, BuildService(w, t, n).0, BuildService(w, t, n).1)
  {
    hide BuildService;
  }

  lemma ServiceGoesOn(w: World, tasks: seq<ServiceTask>, i: nat, at: seq<nat>, no: seq<nat>, r: Withdrawals,
                      rejected: seq<ServiceWithdrawal>, m: Option<Msg>, x: ServiceWithdrawal)
    requires i < |tasks| && InTurn(at, i) && InTurn(no, i) && ServiceSoFar(w, tasks, at, no, r, rejected)
    requires IsService(w, tasks[i], i, m, x)
    ensures if m.Some? then
        ServiceSoFar(w, tasks, at + [i], no, r.(messages := r.messages + [m.value], service := r.service + [x]),
          rejected)
      else ServiceSoFar(w, tasks, at, no + [i], r, rejected + [x])
  {
    hide IsService;
  }

  lemma InternalGoesOn(w: World, tasks: seq<InternalTask>, i: nat, at: seq<nat>, acc: Withdrawals, r: Withdrawals,
                       m: Msg, p: InternalWithdrawalPlan)
    requires i < |tasks| && InTurn(at, i) && InternalSoFar(w, tasks, at, acc, r) && IsInternal(w, tasks[i], i, m, p)
    ensures
      InternalSoFar(w, tasks, at + [i], acc, r.(messages := r.messages + [m], internals := r.internals + [p]))
  {
    hide IsInternal;
  }

  lemma ExternalGoesOn(w: World, tasks: seq<ExternalTask>, i: nat, at: seq<nat>, acc: Withdrawals, r: Withdrawals,
                       m: Msg, t: ExternalTask)
    requires i < |tasks| && InTurn(at, i) && ExternalSoFar(w, tasks, at, acc, r) && IsExternal(w, tasks[i], m, t)
    ensures ExternalSoFar(w, tasks, at + [i], acc, r.(messages := r.messages + [m], external := r.external + [t]))
  {
    hide IsExternal;
  }

  lemma LoopsStart(w: World, service: seq<ServiceTask>, snapshot: Amounts)
    requires Ton in snapshot && forall c :: c in snapshot ==> snapshot[c] >= 0
    ensures ServiceSoFar(w, service, [], [], Withdrawals([], [], [], []), [])
    ensures ServiceInv(w, service, 0, snapshot, snapshot, [], Withdrawals([], [], [], []), [])
  {
    StartDistinct();
  }

  lemma NextLoopStarts(w: World, internals: seq<InternalTask>, external: seq<ExternalTask>, r: Withdrawals)
    requires Described(w, r) && r.external == []
    ensures r.internals == [] ==> InternalSoFar(w, internals, [], r, r)
    ensures ExternalSoFar(w, external, [], r, r)
  {
    hide ServiceMessage, InternalMessage, ExternalMessage;
  }

  lemma KeptMessages(w: World, service: seq<ServiceTask>, internals: seq<InternalTask>, t: Turns, r: Withdrawals,
                     r': Withdrawals)
    requires ServiceBuilt(w, service, t.service, r) && r'.service == r.service && r.messages <= r'.messages
    ensures ServiceBuilt(w, service, t.service, r')
    ensures InternalBuilt(w, internals, t.internals, r) && r'.internals == r.internals ==>
      InternalBuilt(w, internals, t.internals, r')
  {
    hide BuildService, BuildInternal;
    forall k | 0 <= k < |t.service| ensures r'.messages[k] == r.messages[k] {}
    assert forall k :: 0 <= k < |r.messages| ==> r'.messages[k] == r.messages[k];
  }

  // ---- Who gets what, turn by turn ----

  /** What a task reserves at its turn, and whether that gets it a message. */
  datatype Claim = Claim(currency: Currency, amount: int, message: bool)

  function Less(left: Amounts, c: Claim): Amounts
    requires Ton in left && c.currency in left
  {
    var rest := left[c.currency := left[c.currency] - c.amount];
    if c.currency == Ton then rest else rest[Ton := rest[Ton] - TRANSFER_TON]
  }

  ghost predicate Claimable(left: Amounts, claims: seq<Option<Claim>>) {
    Ton in left && forall c :: Some(c) in claims ==> c.currency in left
  }

  /** The balances after the claims were met in turn, as far as they were covered and the batch had room, and whose
    * claim got a message. */
  ghost function Serve(left: Amounts, room: nat, claims: seq<Option<Claim>>): (r: (Amounts, seq<nat>))
    requires Claimable(left, claims)
    ensures r.0.Keys == left.Keys && InTurn(r.1, |claims|)
  {
    if claims == [] then (left, [])
    else
      var n := |claims| - 1;
      assert forall c :: c in claims[..n] ==> c in claims;
      var (rest, at) := Serve(left, room, claims[..n]);
      match claims[n]
      case None => (rest, at)
      case Some(c) =>
        assert Some(c) in claims;
        if |at| >= room || !Affordable(rest, c.currency, c.amount) then (rest, at)
        else (Less(rest, c), if c.message then at + [n] else at)
  }

  ghost predicate Served(left: Amounts, room: nat, claims: seq<Option<Claim>>, i: nat, rest: Amounts, at: seq<nat>) {
    Claimable(left, claims) && i <= |claims| && Serve(left, room, claims[..i]) == (rest, at)
  }

  /** There is a claim, room, and enough left. */
  predicate Met(rest: Amounts, sent: nat, room: nat, claim: Option<Claim>) {
    && claim.Some? && sent < room && claim.value.currency in rest && Ton in rest
    && Affordable(rest, claim.value.currency, claim.value.amount)
  }

  lemma ServedOn(left: Amounts, room: nat, claims: seq<Option<Claim>>, i: nat, rest: Amounts, at: seq<nat>)
    requires Served(left, room, claims, i, rest, at) && i < |claims|
    ensures var met := Met(rest, |at|, room, claims[i]);
      Served(left, room, claims, i + 1, if met then Less(rest, claims[i].value) else rest,
             if met && claims[i].value.message then at + [i] else at)
  {
    hide Affordable, Less;
    var cs := claims[..i + 1];
    assert |cs| - 1 == i && cs[..i] == claims[..i] && cs[i] == claims[i];
    assert claims[i] in claims;
    assert Claimable(left, cs) by { assert forall c :: c in cs ==> c in claims; }
    assert Serve(left, room, cs[..i]) == (rest, at);
  }

  lemma {:induction false} ServedInFull(left: Amounts, room: nat, claims: seq<Option<Claim>>, i: nat, rest: Amounts,
                                        at: seq<nat>)
    requires i <= |claims| && Served(left, room, claims, i, rest, at) && |at| >= room
    ensures Served(left, room, claims, |claims|, rest, at)
    decreases |claims| - i
  {
    hide Served;
    if i < |claims| {
      ServedOn(left, room, claims, i, rest, at);
      ServedInFull(left, room, claims, i + 1, rest, at);
    }
  }

  /** A message goes to a claim for one if and only if, at its turn, there is room and it is covered. */
  lemma {:induction false} ServedExact(left: Amounts, room: nat, claims: seq<Option<Claim>>, k: nat)
    requires Claimable(left, claims) && k < |claims|
    ensures Claimable(left, claims[..k])
    ensures var (rest, at) := Serve(left, room, claims[..k]);
      k in Serve(left, room, claims).1 <==> Met(rest, |at|, room, claims[k]) && claims[k].value.message
    decreases |claims|
  {
    hide Affordable, Serve, Claimable, Met;
    var n := |claims| - 1;
    ServedLast(left, room, claims);
    if k < n {
      ServedExact(left, room, claims[..n], k);
      assert claims[..n][..k] == claims[..k];
    }
  }

  lemma ServedLast(left: Amounts, room: nat, claims: seq<Option<Claim>>)
    requires Claimable(left, claims) && claims != []
    ensures var n := |claims| - 1;
      && Claimable(left, claims[..n])
      && var (rest, at) := Serve(left, room, claims[..n]);
         var got := Met(rest, |at|, room, claims[n]) && claims[n].value.message;
         && InTurn(at, n)
         && Serve(left, room, claims).1 == if got then at + [n] else at
  {
    hide Affordable, Less, Serve;
    var n := |claims| - 1;
    assert forall c :: c in claims[..n] ==> c in claims;
    var (rest, at) := Serve(left, room, claims[..n]);
    ServedOn(left, room, claims, n, rest, at);
    assert claims[..n + 1] == claims;
  }

  /** A service task has gas reserved even if there is nothing to send: no jettons on a TON deposit, no TON or jettons
    * at a deposit's owner, or jettons of a kind that the book knows. */
  function ServiceClaims(w: World, tasks: seq<ServiceTask>): (s: seq<Option<Claim>>)
    ensures |s| == |tasks|
  {
    seq(|tasks|, i requires 0 <= i < |tasks| => Some(Claim(Ton, TRANSFER_TON, ServiceSends(w, tasks[i]))))
  }

  predicate ServiceSends(w: World, t: ServiceTask) {
    if t.master.None? then w.tonBalance(w.proxy(t.subwallet)) > 0
    else if t.deposit in w.book && w.book[t.deposit] == TonDeposit then
      w.jettonBalance(w.walletOf(t.deposit, t.master.value)) > 0
    else
      var wallet := w.walletOf(w.proxy(t.subwallet), t.master.value);
      wallet !in w.book && w.jettonBalance(wallet) > 0
  }

  lemma ServiceSendsExact(w: World, t: ServiceTask, n: nat)
    requires t.deposit in w.book && (w.book[t.deposit] == TonDeposit ==> t.master.Some?)
    ensures BuildService(w, t, n).0.Some? <==> ServiceSends(w, t)
  {}

  /** An internal task has gas reserved even if its deposit turns out to be below the cutoff. */
  function InternalClaims(w: World, tasks: seq<InternalTask>): (s: seq<Option<Claim>>)
    ensures |s| == |tasks|
  {
    seq(|tasks|, i requires 0 <= i < |tasks| => Some(Claim(Ton, TRANSFER_TON,
      tasks[i].currency in w.cutoff && w.jettonBalance(tasks[i].deposit) > w.cutoff[tasks[i].currency])))
  }

  /** An external task claims its amount, unless its destination is known. */
  function ExternalClaims(w: World, tasks: seq<ExternalTask>): (s: seq<Option<Claim>>)
    ensures |s| == |tasks|
  {
    seq(|tasks|, i requires 0 <= i < |tasks| =>
      if tasks[i].dest in w.book then None else Some(Claim(tasks[i].currency, tasks[i].amount, true)))
  }

  lemma AllClaimable(w: World, left: Amounts, service: seq<ServiceTask>, internals: seq<InternalTask>,
                     external: seq<ExternalTask>)
    requires Ton in left
    ensures Served(left, |service|, ServiceClaims(w, service), 0, left, [])
    ensures forall room: nat :: Served(left, room, InternalClaims(w, internals), 0, left, [])
    ensures (forall t :: t in external ==> t.currency in left) ==>
      forall room: nat :: Served(left, room, ExternalClaims(w, external), 0, left, [])
  {
    assert forall i :: 0 <= i < |external| ==> external[i] in external;
  }

  /** One turn of each loop. */
  lemma ServiceTurn(w: World, start: Amounts, tasks: seq<ServiceTask>, i: nat, left: Amounts, at: seq<nat>,
                    left': Amounts)
    requires i < |tasks| && |at| < |tasks| && Ton in left
    requires Served(start, |tasks|, ServiceClaims(w, tasks), i, left, at)
    ensures left[Ton] < TRANSFER_TON ==> Served(start, |tasks|, ServiceClaims(w, tasks), i + 1, left, at)
    ensures GasTaken(left, left', Ton, TRANSFER_TON) ==>
      Served(start, |tasks|, ServiceClaims(w, tasks), i + 1, left',
             if ServiceSends(w, tasks[i]) then at + [i] else at)
  {
    hide Served, Serve, ServiceSends;
    var c := Claim(Ton, TRANSFER_TON, ServiceSends(w, tasks[i]));
    assert ServiceClaims(w, tasks)[i] == Some(c);
    ServedOn(start, |tasks|, ServiceClaims(w, tasks), i, left, at);
    if GasTaken(left, left', Ton, TRANSFER_TON) { assert left' == Less(left, c); }
  }

  lemma InternalTurn(w: World, start: Amounts, room: nat, tasks: seq<InternalTask>, i: nat, left: Amounts, at: seq<nat>,
                     left': Amounts)
    requires i < |tasks| && |at| < room && Served(start, room, InternalClaims(w, tasks), i, left, at) && Ton in left
    ensures left[Ton] < TRANSFER_TON ==> Served(start, room, InternalClaims(w, tasks), i + 1, left, at)
    ensures GasTaken(left, left', Ton, TRANSFER_TON) && tasks[i].currency in w.cutoff ==>
      Served(start, room, InternalClaims(w, tasks), i + 1, left',
             if w.jettonBalance(tasks[i].deposit) > w.cutoff[tasks[i].currency] then at + [i] else at)
  {
    hide Served, Serve;
    var c := InternalClaims(w, tasks)[i].value;
    ServedOn(start, room, InternalClaims(w, tasks), i, left, at);
    if GasTaken(left, left', Ton, TRANSFER_TON) { assert left' == Less(left, c); }
  }

  lemma ExternalTurn(w: World, start: Amounts, room: nat, tasks: seq<ExternalTask>, i: nat, left: Amounts, at: seq<nat>,
                     left': Amounts)
    requires i < |tasks| && |at| < room && Served(start, room, ExternalClaims(w, tasks), i, left, at)
    requires Ton in left && tasks[i].currency in left
    ensures tasks[i].dest in w.book || !Affordable(left, tasks[i].currency, tasks[i].amount) ==>
      Served(start, room, ExternalClaims(w, tasks), i + 1, left, at)
    ensures tasks[i].dest !in w.book && GasTaken(left, left', tasks[i].currency, tasks[i].amount) ==>
      Served(start, room, ExternalClaims(w, tasks), i + 1, left', at + [i])
  {
    hide Served, Serve;
    ServedOn(start, room, ExternalClaims(w, tasks), i, left, at);
    if tasks[i].dest !in w.book && GasTaken(left, left', tasks[i].currency, tasks[i].amount) {
      assert left' == Less(left, ExternalClaims(w, tasks)[i].value);
    }
  }

  // ---- The three loops ----

  ghost predicate Sound(w: World, snapshot: Amounts, left: Amounts, log: seq<(Currency, int)>, r: Withdrawals) {
    Described(w, r) && DistinctKeys(r.messages) && WithinBudget(snapshot, left, log, r)
  }

  /** A service task got its message, was rejected, or found no gas. */
  predicate ServiceHandled(t: ServiceTask, r: Withdrawals, rejected: seq<ServiceWithdrawal>, left: Amounts) {
    || (exists x :: x in r.service && x.task.deposit == t.deposit && x.task.memo == t.memo)
    || (exists x :: x in rejected && x.task == t && !x.filled)
    || (Ton in left && left[Ton] < TRANSFER_TON)
  }

  ghost predicate ServiceInv(w: World, tasks: seq<ServiceTask>, i: nat, snapshot: Amounts, left: Amounts,
                             log: seq<(Currency, int)>, r: Withdrawals, rejected: seq<ServiceWithdrawal>)
    requires i <= |tasks|
  {
    && Sound(w, snapshot, left, log, r) && r.internals == [] && r.external == []
    && |log| == |r.service| + |rejected| <= i
    && (forall x :: x in r.service ==> exists j :: 0 <= j < i && tasks[j].deposit == x.task.deposit)
    && (forall x :: x in rejected ==> x.task in tasks && !x.filled)
    && forall k :: 0 <= k < i ==> ServiceHandled(tasks[k], r, rejected, left)
  }

  ghost predicate GasTaken(left: Amounts, left': Amounts, cur: Currency, amount: int) {
    && Ton in left && cur in left && amount >= 0 && Affordable(left, cur, amount) && left'.Keys == left.Keys
    && forall c :: c in left' ==> left'[c] == left[c] - Taken(cur, amount, c)
  }

  /** The same currencies, none of which grew. */
  predicate LessLeft(left: Amounts, left': Amounts) {
    left'.Keys == left.Keys && forall c :: c in left ==> left'[c] <= left[c]
  }

  lemma ServiceKeyIsNew(w: World, tasks: seq<ServiceTask>, i: nat, r: Withdrawals, m: Msg)
    requires ServiceTasksOk(w, tasks) && i < |tasks| && Described(w, r) && DistinctKeys(r.messages)
    requires r.internals == [] && r.external == []
    requires forall x :: x in r.service ==> exists j :: 0 <= j < i && tasks[j].deposit == x.task.deposit
    requires KeyOf(m) == Some(tasks[i].deposit)
    ensures DistinctKeys(r.messages + [m])
  {
    hide KeyOf, Described, ServiceTaskOk;
    forall n | n in r.messages ensures KeyOf(n) != KeyOf(m) { KeyOrigin(w, r, n); }
    AppendDistinct(r.messages, m);
  }

  lemma NoGasIsHandled(t: ServiceTask, r: Withdrawals, rejected: seq<ServiceWithdrawal>, left: Amounts)
    requires Ton in left && left[Ton] < TRANSFER_TON
    ensures ServiceHandled(t, r, rejected, left)
  {}

  lemma SentIsHandled(t: ServiceTask, r: Withdrawals, rejected: seq<ServiceWithdrawal>, left: Amounts,
                      x: ServiceWithdrawal)
    requires Ton in left && x in r.service && x.task.deposit == t.deposit && x.task.memo == t.memo
    ensures ServiceHandled(t, r, rejected, left)
  {}

  lemma ServiceSent(w: World, tasks: seq<ServiceTask>, i: nat, snapshot: Amounts, left: Amounts,
                    log: seq<(Currency, int)>,
                    r: Withdrawals, rejected: seq<ServiceWithdrawal>, left': Amounts, m: Msg, x: ServiceWithdrawal)
    requires ServiceTasksOk(w, tasks) && i < |tasks| && ServiceInv(w, tasks, i, snapshot, left, log, r, rejected)
    requires GasTaken(left, left', Ton, TRANSFER_TON)
    requires ServiceMessage(w, x.task, m) && x.task.deposit == tasks[i].deposit && x.task.memo == tasks[i].memo
    requires KeyOf(m) == Some(tasks[i].deposit) && m.value == TRANSFER_TON
    ensures ServiceInv(w, tasks, i + 1, snapshot, left', log + [(Ton, TRANSFER_TON)],
                       r.(messages := r.messages + [m], service := r.service + [x]), rejected)
  {
    hide Described, DistinctKeys, ServiceMessage, KeyOf, ServiceTasksOk, WithinBudget, CarriedTon, CarriedJetton,
         ServiceHandled;
    var r' := r.(messages := r.messages + [m], service := r.service + [x]);
    ServiceKeyIsNew(w, tasks, i, r, m);
    DescribedAfterService(w, r, m, x);
    CarriedTonAfter(r.messages, m);
    BudgetAfter(snapshot, left, log, r, Ton, TRANSFER_TON, left', r');
    ServiceHandledLater(tasks, i, r, rejected, left, r', rejected, left');
    SentIsHandled(tasks[i], r', rejected, left', x);
  }

  lemma ServiceRejected(w: World, tasks: seq<ServiceTask>, i: nat, snapshot: Amounts, left: Amounts,
                        log: seq<(Currency, int)>,
                        r: Withdrawals, rejected: seq<ServiceWithdrawal>, left': Amounts, x: ServiceWithdrawal)
    requires i < |tasks| && ServiceInv(w, tasks, i, snapshot, left, log, r, rejected)
    requires GasTaken(left, left', Ton, TRANSFER_TON) && x.task == tasks[i] && !x.filled
    ensures ServiceInv(w, tasks, i + 1, snapshot, left', log + [(Ton, TRANSFER_TON)], r, rejected + [x])
  {
    hide Described, DistinctKeys;
    BudgetAfter(snapshot, left, log, r, Ton, TRANSFER_TON, left', r);
    ServiceHandledLater(tasks, i, r, rejected, left, r, rejected + [x], left');
    assert x in rejected + [x];
  }

  lemma ServiceHandledLater(tasks: seq<ServiceTask>, i: nat, r: Withdrawals, rejected: seq<ServiceWithdrawal>,
                            left: Amounts, r': Withdrawals, rejected': seq<ServiceWithdrawal>, left': Amounts)
    requires i <= |tasks| && Ton in left && Ton in left' && left'[Ton] <= left[Ton]
    requires forall k :: 0 <= k < i ==> ServiceHandled(tasks[k], r, rejected, left)
    requires (forall x :: x in r.service ==> x in r'.service) && (forall x :: x in rejected ==> x in rejected')
    ensures forall k :: 0 <= k < i ==> ServiceHandled(tasks[k], r', rejected', left')
  {
    forall k | 0 <= k < i ensures ServiceHandled(tasks[k], r', rejected', left') {
      assert ServiceHandled(tasks[k], r, rejected, left);
    }
  }

  /** Service withdrawals: one gas reservation per task, then a message, a rejection, or an error for a foreign
    * address. */
  method AddService(w: World, b: Balances, tasks: seq<ServiceTask>, ghost snapshot: Amounts)
    returns (ok: bool, r: Withdrawals, rejected: seq<ServiceWithdrawal>, ghost log: seq<(Currency, int)>,
             ghost at: seq<nat>, ghost no: seq<nat>)
    requires Consistent(w) && ServiceTasksOk(w, tasks)
    requires b.amounts == snapshot && Ton in snapshot && forall c :: c in snapshot ==> snapshot[c] >= 0
    modifies b
    ensures !ok ==> exists t :: t in tasks && !ServiceAddress(w, t.deposit)
    ensures ok ==> ServiceInv(w, tasks, |tasks|, snapshot, b.amounts, log, r, rejected)
    ensures ok ==> ServiceBuilt(w, tasks, at, r) && ServiceRefused(w, tasks, no, rejected)
    ensures ok ==>
      |r.messages| == |at| && Served(snapshot, |tasks|, ServiceClaims(w, tasks), |tasks|, b.amounts, at)
  {
    hide BuildService, ServiceMessage, KeyOf, Consistent, ServiceHandled, DistinctKeys, InternalMessage,
         ExternalMessage, ServiceBuilt, ServiceRefused, Described, WithinBudget, IsService;
    hide Served, ServiceClaims, ServiceSends;
    r, rejected, log, at, no := Withdrawals([], [], [], []), [], [], [], [];
    LoopsStart(w, tasks, snapshot);
    AllClaimable(w, snapshot, tasks, [], []);
    for i := 0 to |tasks|
      invariant Ton in b.amounts && ServiceInv(w, tasks, i, snapshot, b.amounts, log, r, rejected)
      invariant InTurn(at, i) && InTurn(no, i) && ServiceSoFar(w, tasks, at, no, r, rejected)
      invariant Served(snapshot, |tasks|, ServiceClaims(w, tasks), i, b.amounts, at)
    {
      var t := tasks[i];
      ghost var before := b.amounts;
      var short := b.Decrease(Ton, TRANSFER_TON);
      ServiceTurn(w, snapshot, tasks, i, before, at, b.amounts);
      if short {
        NoGasIsHandled(t, r, rejected, b.amounts);
        continue;
      }
      if t.deposit !in w.book || !(w.book[t.deposit] == JettonOwner || w.book[t.deposit] == TonDeposit) {
        return false, r, rejected, log, at, no;
      }
      var (m, x) := BuildService(w, t, i);
      ServiceMeaning(w, t, i);
      ServiceSendsExact(w, t, i);
      if m.Some? {
        ServiceSent(w, tasks, i, snapshot, before, log, r, rejected, b.amounts, m.value, x);
      } else {
        ServiceRejected(w, tasks, i, snapshot, before, log, r, rejected, b.amounts, x);
      }
      log := log + [(Ton, TRANSFER_TON)];
      assert IsService(w, t, i, m, x) by { ServiceIs(w, t, i); }
      ServiceGoesOn(w, tasks, i, at, no, r, rejected, m, x);
      if m.Some? {
        at := at + [i];
        r := r.(messages := r.messages + [m.value], service := r.service + [x]);
      } else {
        no := no + [i];
        rejected := rejected + [x];
      }
    }
    ok := true;
  }

  /** An internal task got its message, or its deposit is below the cutoff, gas ran out, or the batch is full. */
  predicate InternalHandled(w: World, t: InternalTask, r: Withdrawals, left: Amounts) {
    || (exists p :: p in r.internals && p.task == t)
    || (t.currency in w.cutoff && w.jettonBalance(t.deposit) <= w.cutoff[t.currency])
    || (Ton in left && left[Ton] < TRANSFER_TON) || |r.messages| == 251
  }

  ghost predicate InternalInv(w: World, tasks: seq<InternalTask>, i: nat, snapshot: Amounts, left: Amounts,
                              log: seq<(Currency, int)>, acc: Withdrawals, r: Withdrawals)
    requires i <= |tasks| && InternalTasksOk(w, tasks)
  {
    && Sound(w, snapshot, left, log, r) && r.service == acc.service && r.external == [] && |r.messages| <= 251
    && (forall p :: p in r.internals ==>
          (exists j :: 0 <= j < i && p.task == tasks[j])
          && p.task.currency in w.cutoff && w.jettonBalance(p.task.deposit) > w.cutoff[p.task.currency])
    && forall k :: 0 <= k < i ==> InternalHandled(w, tasks[k], r, left)
  }

  lemma InternalHandledLater(w: World, tasks: seq<InternalTask>, i: nat, r: Withdrawals, left: Amounts, r': Withdrawals,
                             left': Amounts)
    requires i <= |tasks| && InternalTasksOk(w, tasks) && Ton in left && Ton in left' && left'[Ton] <= left[Ton]
    requires forall k :: 0 <= k < i ==> InternalHandled(w, tasks[k], r, left)
    requires (forall x :: x in r.internals ==> x in r'.internals) && (|r.messages| == 251 ==> |r'.messages| == 251)
    ensures forall k :: 0 <= k < i ==> InternalHandled(w, tasks[k], r', left')
  {
    forall k | 0 <= k < i ensures InternalHandled(w, tasks[k], r', left') {
      assert InternalHandled(w, tasks[k], r, left);
    }
  }

  lemma InternalKeyIsNew(w: World, tasks: seq<InternalTask>, i: nat, r: Withdrawals, m: Msg)
    requires InternalTasksOk(w, tasks) && i < |tasks| && Described(w, r) && DistinctKeys(r.messages) && r.external == []
    requires forall x :: x in r.service ==> x.task.deposit != w.proxy(tasks[i].subwallet)
    requires forall p :: p in r.internals ==> exists j :: 0 <= j < i && p.task == tasks[j]
    requires KeyOf(m) == Some(w.proxy(tasks[i].subwallet))
    ensures DistinctKeys(r.messages + [m])
  {
    hide KeyOf, Described, InternalTaskOk;
    forall n | n in r.messages ensures KeyOf(n) != KeyOf(m) { KeyOrigin(w, r, n); }
    AppendDistinct(r.messages, m);
  }

  lemma InternalSent(w: World, tasks: seq<InternalTask>, i: nat, snapshot: Amounts, left: Amounts,
                     log: seq<(Currency, int)>,
                     acc: Withdrawals, r: Withdrawals, left': Amounts, m: Msg, p: InternalWithdrawalPlan)
    requires InternalTasksOk(w, tasks) && i < |tasks| && |r.messages| <= 250
    requires InternalInv(w, tasks, i, snapshot, left, log, acc, r) && GasTaken(left, left', Ton, TRANSFER_TON)
    requires forall x :: x in acc.service ==> x.task.deposit != w.proxy(tasks[i].subwallet)
    requires p.task == tasks[i] && InternalMessage(w, p, m)
    requires KeyOf(m) == Some(w.proxy(tasks[i].subwallet)) && m.value == TRANSFER_TON
    requires p.task.currency in w.cutoff && w.jettonBalance(p.task.deposit) > w.cutoff[p.task.currency]
    ensures InternalInv(w, tasks, i + 1, snapshot, left', log + [(Ton, TRANSFER_TON)], acc,
                        r.(messages := r.messages + [m], internals := r.internals + [p]))
  {
    hide Described, DistinctKeys, InternalMessage, KeyOf, WithinBudget, CarriedTon, CarriedJetton;
    var r' := r.(messages := r.messages + [m], internals := r.internals + [p]);
    InternalKeyIsNew(w, tasks, i, r, m);
    DescribedAfterInternal(w, r, m, p);
    CarriedTonAfter(r.messages, m);
    BudgetAfter(snapshot, left, log, r, Ton, TRANSFER_TON, left', r');
    InternalHandledLater(w, tasks, i, r, left, r', left');
    assert p in r'.internals;
  }

  lemma InternalSkipped(w: World, tasks: seq<InternalTask>, i: nat, snapshot: Amounts, left: Amounts,
                        log: seq<(Currency, int)>, acc: Withdrawals, r: Withdrawals, left': Amounts)
    requires InternalTasksOk(w, tasks) && i < |tasks| && InternalInv(w, tasks, i, snapshot, left, log, acc, r)
    requires GasTaken(left, left', Ton, TRANSFER_TON)
    requires InternalTaskOk(w, tasks[i]) && w.jettonBalance(tasks[i].deposit) <= w.cutoff[tasks[i].currency]
    ensures InternalInv(w, tasks, i + 1, snapshot, left', log + [(Ton, TRANSFER_TON)], acc, r)
  {
    hide Described, DistinctKeys;
    BudgetAfter(snapshot, left, log, r, Ton, TRANSFER_TON, left', r);
    InternalHandledLater(w, tasks, i, r, left, r, left');
  }

  /** No task yet, none without gas, and none once the batch is full. */
  lemma InternalStarts(w: World, tasks: seq<InternalTask>, snapshot: Amounts, left: Amounts,
                       log: seq<(Currency, int)>, acc: Withdrawals)
    requires InternalTasksOk(w, tasks) && Sound(w, snapshot, left, log, acc)
    requires acc.internals == [] && acc.external == [] && |acc.messages| <= 251
    ensures InternalInv(w, tasks, 0, snapshot, left, log, acc, acc)
  {
    hide Sound, InternalTasksOk;
  }

  lemma InternalUnmet(w: World, tasks: seq<InternalTask>, i: nat, j: nat, snapshot: Amounts, left: Amounts,
                      log: seq<(Currency, int)>, acc: Withdrawals, r: Withdrawals)
    requires i <= j <= |tasks| && InternalTasksOk(w, tasks) && InternalInv(w, tasks, i, snapshot, left, log, acc, r)
    requires (Ton in left && left[Ton] < TRANSFER_TON) || |r.messages| > 250
    ensures InternalInv(w, tasks, j, snapshot, left, log, acc, r)
  {
    hide Sound, InternalTasksOk;
    forall k | 0 <= k < j ensures InternalHandled(w, tasks[k], r, left) {}
  }

  /** Internal jetton withdrawals: gas is reserved even when the deposit turns out to be below its cutoff. */
  method AddInternal(w: World, b: Balances, acc: Withdrawals, tasks: seq<InternalTask>, ghost snapshot: Amounts,
                     ghost log0: seq<(Currency, int)>)
    returns (r: Withdrawals, ghost log: seq<(Currency, int)>, ghost at: seq<nat>)
    requires Consistent(w) && InternalTasksOk(w, tasks)
    requires Ton in b.amounts && Sound(w, snapshot, b.amounts, log0, acc)
    requires acc.internals == [] && acc.external == [] && |acc.messages| <= 251
    requires forall t, x :: t in tasks && x in acc.service ==> x.task.deposit != w.proxy(t.subwallet)
    modifies b
    ensures InternalInv(w, tasks, |tasks|, snapshot, b.amounts, log, acc, r)
    ensures LessLeft(old(b.amounts), b.amounts) && acc.messages <= r.messages
    ensures InternalBuilt(w, tasks, at, r)
    ensures Injective(w.memo) ==> DistinctMemos(r)
    ensures |r.messages| == |acc.messages| + |at|
      && Served(old(b.amounts), 251 - |acc.messages|, InternalClaims(w, tasks), |tasks|, b.amounts, at)
  {
    hide BuildInternal, InternalMessage, KeyOf, Described, DistinctKeys, Consistent, InternalBuilt, ExternalBuilt;
    hide Served, InternalClaims, InternalInv;
    r, log, at := acc, log0, [];
    ghost var room := 251 - |acc.messages|;
    InternalStarts(w, tasks, snapshot, b.amounts, log, acc);
    NextLoopStarts(w, tasks, [], acc);
    AllClaimable(w, b.amounts, [], tasks, []);
    for i := 0 to |tasks|
      invariant Ton in b.amounts && InternalInv(w, tasks, i, snapshot, b.amounts, log, acc, r)
      invariant LessLeft(old(b.amounts), b.amounts) && InTurn(at, i) && InternalSoFar(w, tasks, at, acc, r)
      invariant Served(old(b.amounts), room, InternalClaims(w, tasks), i, b.amounts, at)
    {
      if |r.messages| > 250 {
        ServedInFull(old(b.amounts), room, InternalClaims(w, tasks), i, b.amounts, at);
        InternalUnmet(w, tasks, i, |tasks|, snapshot, b.amounts, log, acc, r);
        break;
      }
      var t := tasks[i];
      ghost var before := b.amounts;
      var short := b.Decrease(Ton, TRANSFER_TON);
      InternalTurn(w, old(b.amounts), room, tasks, i, before, at, b.amounts);
      if short {
        InternalUnmet(w, tasks, i, i + 1, snapshot, b.amounts, log, acc, r);
        continue;
      }
      var m := BuildInternal(w, t, i);
      InternalMeaning(w, t, i);
      if m.Some? {
        InternalSent(w, tasks, i, snapshot, before, log, acc, r, b.amounts, m.value,
          InternalWithdrawalPlan(t, w.memo(i)));
      } else {
        InternalSkipped(w, tasks, i, snapshot, before, log, acc, r, b.amounts);
      }
      log := log + [(Ton, TRANSFER_TON)];
      if m.Some? {
        InternalGoesOn(w, tasks, i, at, acc, r, m.value, InternalWithdrawalPlan(t, w.memo(i)));
        at := at + [i];
        r := r.(messages := r.messages + [m.value], internals := r.internals + [InternalWithdrawalPlan(t, w.memo(i))]);
      }
    }
    if Injective(w.memo) { MemosAreDistinct(w, tasks, at, r); }
  }

  /** An external task got its message, or its destination is our own, it was not affordable, or the batch is full. */
  predicate ExternalHandled(w: World, t: ExternalTask, r: Withdrawals, left: Amounts) {
    || t in r.external || t.dest in w.book || |r.messages| == 251
    || (Ton in left && t.currency in left && !Affordable(left, t.currency, t.amount))
  }

  ghost predicate ExternalInv(w: World, tasks: seq<ExternalTask>, i: nat, snapshot: Amounts, left: Amounts,
                              log: seq<(Currency, int)>, acc: Withdrawals, r: Withdrawals)
    requires i <= |tasks| && Ton in left && forall t :: t in tasks ==> t.currency in left
  {
    && Sound(w, snapshot, left, log, r) && r.service == acc.service && r.internals == acc.internals
         && |r.messages| <= 251
    && (forall t :: t in r.external ==> t.dest !in w.book && exists j :: 0 <= j < i && t == tasks[j])
    && forall k :: 0 <= k < i ==> ExternalHandled(w, tasks[k], r, left)
  }

  lemma ExternalHandledLater(w: World, tasks: seq<ExternalTask>, i: nat, r: Withdrawals, left: Amounts, r': Withdrawals,
                             left': Amounts)
    requires i <= |tasks| && left'.Keys == left.Keys && Ton in left && (forall t :: t in tasks ==> t.currency in left)
    requires forall c :: c in left ==> left'[c] <= left[c]
    requires forall k :: 0 <= k < i ==> ExternalHandled(w, tasks[k], r, left)
    requires (forall x :: x in r.external ==> x in r'.external) && (|r.messages| == 251 ==> |r'.messages| == 251)
    ensures forall k :: 0 <= k < i ==> ExternalHandled(w, tasks[k], r', left')
  {
    forall k | 0 <= k < i ensures ExternalHandled(w, tasks[k], r', left') {
      assert ExternalHandled(w, tasks[k], r, left);
    }
  }

  lemma ExternalKeyIsNew(w: World, tasks: seq<ExternalTask>, i: nat, r: Withdrawals, m: Msg)
    requires ExternalTasksOk(w, tasks) && i < |tasks| && Described(w, r) && DistinctKeys(r.messages)
    requires forall t :: t in r.external ==> t.dest !in w.book && exists j :: 0 <= j < i && t == tasks[j]
    requires KeyOf(m) == Some(tasks[i].dest) && tasks[i].dest !in w.book
    ensures DistinctKeys(r.messages + [m])
  {
    hide KeyOf, Described, ExternalTaskOk;
    forall n | n in r.messages ensures KeyOf(n) != KeyOf(m) { KeyOrigin(w, r, n); }
    AppendDistinct(r.messages, m);
  }

  lemma ExternalSent(w: World, tasks: seq<ExternalTask>, i: nat, snapshot: Amounts, left: Amounts,
                     log: seq<(Currency, int)>, acc: Withdrawals, r: Withdrawals, left': Amounts, m: Msg)
    requires ExternalTasksOk(w, tasks) && i < |tasks| && |r.messages| <= 250
    requires Ton in left && (forall t :: t in tasks ==> t.currency in left)
    requires ExternalInv(w, tasks, i, snapshot, left, log, acc, r)
      && GasTaken(left, left', tasks[i].currency, tasks[i].amount)
    requires ExternalMessage(w, tasks[i], m) && KeyOf(m) == Some(tasks[i].dest) && tasks[i].dest !in w.book
    requires m.value == if tasks[i].currency == Ton then tasks[i].amount else TRANSFER_TON
    ensures ExternalInv(w, tasks, i + 1, snapshot, left', log + [(tasks[i].currency, tasks[i].amount)], acc,
                        r.(messages := r.messages + [m], external := r.external + [tasks[i]]))
  {
    hide Described, DistinctKeys, ExternalMessage, KeyOf, ExternalTasksOk, WithinBudget, CarriedTon, CarriedJetton;
    var t := tasks[i];
    var r' := r.(messages := r.messages + [m], external := r.external + [t]);
    ExternalKeyIsNew(w, tasks, i, r, m);
    DescribedAfterExternal(w, r, m, t);
    CarriedAfter(r, m, t);
    BudgetAfter(snapshot, left, log, r, t.currency, t.amount, left', r');
    ExternalHandledLater(w, tasks, i, r, left, r', left');
    assert t in r'.external;
  }

  /** The same two steps for external tasks. */
  lemma ExternalStarts(w: World, tasks: seq<ExternalTask>, snapshot: Amounts, left: Amounts,
                       log: seq<(Currency, int)>, acc: Withdrawals)
    requires Ton in left && forall t :: t in tasks ==> t.currency in left
    requires Sound(w, snapshot, left, log, acc) && acc.external == [] && |acc.messages| <= 251
    ensures ExternalInv(w, tasks, 0, snapshot, left, log, acc, acc)
  {
    hide Sound;
  }

  lemma ExternalUnmet(w: World, tasks: seq<ExternalTask>, i: nat, j: nat, snapshot: Amounts, left: Amounts,
                      log: seq<(Currency, int)>, acc: Withdrawals, r: Withdrawals)
    requires i <= j <= |tasks| && Ton in left && forall t :: t in tasks ==> t.currency in left
    requires ExternalInv(w, tasks, i, snapshot, left, log, acc, r)
    requires |r.messages| > 250 || (j == i + 1
      && (tasks[i].dest in w.book || !Affordable(left, tasks[i].currency, tasks[i].amount)))
    ensures ExternalInv(w, tasks, j, snapshot, left, log, acc, r)
  {
    hide Sound, Affordable;
    forall k | 0 <= k < j ensures ExternalHandled(w, tasks[k], r, left) {}
  }

  /** External withdrawals: known destinations are skipped, the rest is paid as far as the balances go. */
  method AddExternal(w: World, b: Balances, acc: Withdrawals, tasks: seq<ExternalTask>, ghost snapshot: Amounts,
                     ghost log0: seq<(Currency, int)>)
    returns (r: Withdrawals, ghost log: seq<(Currency, int)>, ghost at: seq<nat>)
    requires Consistent(w) && ExternalTasksOk(w, tasks)
    requires Ton in b.amounts && forall t :: t in tasks ==> t.currency in b.amounts
    requires Sound(w, snapshot, b.amounts, log0, acc) && acc.external == [] && |acc.messages| <= 251
    modifies b
    ensures LessLeft(old(b.amounts), b.amounts) && acc.messages <= r.messages
    ensures ExternalInv(w, tasks, |tasks|, snapshot, b.amounts, log, acc, r)
    ensures ExternalBuilt(w, tasks, at, r)
    ensures Served(old(b.amounts), 251 - |acc.messages|, ExternalClaims(w, tasks), |tasks|, b.amounts, at)
  {
    hide Served, ExternalClaims, ExternalInv;
    hide Pow2, BuildExternal, ExternalMessage, KeyOf, Described, DistinctKeys, Consistent, WithinBudget, InternalBuilt,
         ExternalBuilt;
    r, log, at := acc, log0, [];
    ghost var room := 251 - |acc.messages|;
    NextLoopStarts(w, [], tasks, acc);
    ExternalStarts(w, tasks, snapshot, b.amounts, log, acc);
    AllClaimable(w, b.amounts, [], [], tasks);
    for i := 0 to |tasks|
      invariant LessLeft(old(b.amounts), b.amounts) && InTurn(at, i) && ExternalSoFar(w, tasks, at, acc, r)
      invariant ExternalInv(w, tasks, i, snapshot, b.amounts, log, acc, r)
      invariant Served(old(b.amounts), room, ExternalClaims(w, tasks), i, b.amounts, at)
    {
      if |r.messages| > 250 {
        ServedInFull(old(b.amounts), room, ExternalClaims(w, tasks), i, b.amounts, at);
        ExternalUnmet(w, tasks, i, |tasks|, snapshot, b.amounts, log, acc, r);
        break;
      }
      var t := tasks[i];
      ghost var before := b.amounts;
      ExternalTurn(w, old(b.amounts), room, tasks, i, before, at, b.amounts);
      if t.dest in w.book {
        ExternalUnmet(w, tasks, i, i + 1, snapshot, b.amounts, log, acc, r);
        continue;
      }
      var short := b.Decrease(t.currency, t.amount);
      ExternalTurn(w, old(b.amounts), room, tasks, i, before, at, b.amounts);
      if short {
        ExternalUnmet(w, tasks, i, i + 1, snapshot, b.amounts, log, acc, r);
        continue;
      }
      assert ExternalTaskOk(w, t);
      ExternalMeaning(w, t);
      ExternalSent(w, tasks, i, snapshot, before, log, acc, r, b.amounts, BuildExternal(w, t));
      log := log + [(t.currency, t.amount)];
      ExternalGoesOn(w, tasks, i, at, acc, r, BuildExternal(w, t), t);
      at := at + [i];
      r := r.(messages := r.messages + [BuildExternal(w, t)], external := r.external + [t]);
    }
  }

  /** The addresses that service messages use up. */
  function UsedBy(service: seq<ServiceWithdrawal>): seq<Address> {
    seq(|service|, i requires 0 <= i < |service| => service[i].task.deposit)
  }

  /** No task with a claim to a message is passed over while there is gas, balance and room. */
  ghost predicate NonePassedOver(w: World, service: seq<ServiceTask>, internals: seq<InternalTask>,
                                 external: seq<ExternalTask>,
                                 r: Withdrawals, rejected: seq<ServiceWithdrawal>, left: Amounts)
  {
    && (forall t :: t in service ==> ServiceHandled(t, r, rejected, left))
    && (forall t :: t in internals ==> InternalHandled(w, t, r, left))
    && forall t :: t in external ==> ExternalHandled(w, t, r, left)
  }

  lemma AllHandled(w: World, service: seq<ServiceTask>, internals: seq<InternalTask>, external: seq<ExternalTask>,
                   snapshot: Amounts, left1: Amounts, left2: Amounts, left: Amounts,
                   log1: seq<(Currency, int)>, log2: seq<(Currency, int)>, log: seq<(Currency, int)>,
                   acc: Withdrawals, withInternal: Withdrawals, all: Withdrawals, rejected: seq<ServiceWithdrawal>)
    requires InternalTasksOk(w, internals) && Ton in left && forall t :: t in external ==> t.currency in left
    requires ServiceInv(w, service, |service|, snapshot, left1, log1, acc, rejected)
    requires InternalInv(w, internals, |internals|, snapshot, left2, log2, acc, withInternal)
    requires ExternalInv(w, external, |external|, snapshot, left, log, withInternal, all)
    requires LessLeft(left1, left2) && LessLeft(left2, left) && |all.messages| >= |withInternal.messages|
    ensures NonePassedOver(w, service, internals, external, all, rejected, left)
  {
    hide ServiceHandled, InternalHandled, ExternalHandled, Sound, InternalTasksOk;
    ServiceHandledLater(service, |service|, acc, rejected, left1, all, rejected, left);
    InternalHandledLater(w, internals, |internals|, withInternal, left2, all, left);
    forall t | t in service ensures ServiceHandled(t, all, rejected, left) {
      var k :| 0 <= k < |service| && service[k] == t;
    }
    forall t | t in internals ensures InternalHandled(w, t, all, left) {
      var k :| 0 <= k < |internals| && internals[k] == t;
    }
    forall t | t in external ensures ExternalHandled(w, t, all, left) {
      var k :| 0 <= k < |external| && external[k] == t;
    }
  }

  /** Service, internal and external tasks are served in this order, from the snapshot down to what is left. */
  ghost predicate ServedInTurn(w: World, snapshot: Amounts, service: seq<ServiceTask>, internals: seq<InternalTask>,
                               external: seq<ExternalTask>, turns: Turns, left: Amounts)
  {
    exists left1, left2 :: ServedVia(w, snapshot, service, left1, internals, left2, external, turns, left)
  }

  ghost predicate ServedVia(w: World, snapshot: Amounts, service: seq<ServiceTask>, left1: Amounts,
                            internals: seq<InternalTask>, left2: Amounts, external: seq<ExternalTask>, turns: Turns,
                            left: Amounts)
  {
    var room := 251 - |turns.service|;
    && 0 <= |turns.internals| <= room
    && Served(snapshot, |service|, ServiceClaims(w, service), |service|, left1, turns.service)
    && Served(left1, room, InternalClaims(w, internals), |internals|, left2, turns.internals)
    && Served(left2, room - |turns.internals|, ExternalClaims(w, external), |external|, left, turns.external)
  }

  lemma ServedByAll(w: World, snapshot: Amounts, service: seq<ServiceTask>, internals: seq<InternalTask>,
                    external: seq<ExternalTask>, turns: Turns, left1: Amounts, left2: Amounts, left: Amounts)
    requires ServedVia(w, snapshot, service, left1, internals, left2, external, turns, left)
    ensures ServedInTurn(w, snapshot, service, internals, external, turns, left)
  {
    hide ServedVia;
  }

  /** What each loop leaves to the next, and the last one to the caller. */
  lemma ServiceEnds(w: World, tasks: seq<ServiceTask>, snapshot: Amounts, left: Amounts, log: seq<(Currency, int)>,
                    r: Withdrawals, rejected: seq<ServiceWithdrawal>)
    requires ServiceInv(w, tasks, |tasks|, snapshot, left, log, r, rejected) && |tasks| <= 250
    ensures Sound(w, snapshot, left, log, r) && r.internals == [] && r.external == [] && |r.messages| <= 251
    ensures left.Keys == snapshot.Keys
    ensures forall x :: x in rejected ==> x.task in tasks && !x.filled
  {
    hide ServiceMessage, DistinctKeys, CarriedTon, CarriedJetton, Reserved;
  }

  lemma InternalEnds(w: World, tasks: seq<InternalTask>, snapshot: Amounts, left: Amounts, log: seq<(Currency, int)>,
                     acc: Withdrawals, r: Withdrawals)
    requires InternalTasksOk(w, tasks) && InternalInv(w, tasks, |tasks|, snapshot, left, log, acc, r)
    ensures Sound(w, snapshot, left, log, r) && r.external == [] && |r.messages| <= 251 && r.service == acc.service
  {
    hide Sound, InternalTasksOk;
  }

  lemma ExternalEnds(w: World, tasks: seq<ExternalTask>, snapshot: Amounts, left: Amounts, log: seq<(Currency, int)>,
                     acc: Withdrawals, r: Withdrawals)
    requires Ton in left && forall t :: t in tasks ==> t.currency in left
    requires ExternalInv(w, tasks, |tasks|, snapshot, left, log, acc, r)
    ensures |r.messages| <= 251 && DistinctKeys(r.messages) && Described(w, r) && Ton in snapshot
    ensures CarriedTon(r.messages) <= snapshot[Ton]
    ensures forall c :: c in snapshot && c != Ton ==> CarriedJetton(r.external, c) <= snapshot[c]
    ensures forall t :: t in r.external ==> t in tasks && t.dest !in w.book
    ensures left.Keys == snapshot.Keys && forall c :: c in left ==> 0 <= left[c] == snapshot[c] - Reserved(log, c)
    ensures r.service == acc.service && r.internals == acc.internals
  {
    hide DistinctKeys, Described, CarriedTon, CarriedJetton, Reserved;
  }

  /** The whole builder. The internal tasks come from a query that excludes the addresses of the service messages. */
  method BuildWithdrawalMessages(
    w: World, snapshot: Amounts, service: seq<ServiceTask>, internalQuery: seq<Address> -> seq<InternalTask>,
      external: seq<ExternalTask>)
    returns (r: Option<Withdrawals>, rejected: seq<ServiceWithdrawal>, left: Amounts, ghost log: seq<(Currency, int)>,
             ghost turns: Turns)
    requires Consistent(w) && ServiceTasksOk(w, service) && |service| <= 250
    requires forall used :: InternalTasksOk(w, internalQuery(used))
    requires forall used, t :: t in internalQuery(used) ==> w.proxy(t.subwallet) !in used
    requires ExternalTasksOk(w, external) && forall t :: t in external ==> t.currency in snapshot
    requires Ton in snapshot && forall c :: c in snapshot ==> snapshot[c] >= 0
    ensures r.None? ==> exists t :: t in service && !ServiceAddress(w, t.deposit)
    ensures r.Some? ==>
      && |r.value.messages| <= 251 && DistinctKeys(r.value.messages) && Described(w, r.value)
      && CarriedTon(r.value.messages) <= snapshot[Ton]
      && (forall c :: c in snapshot && c != Ton ==> CarriedJetton(r.value.external, c) <= snapshot[c])
      && (forall t :: t in r.value.external ==> t in external && t.dest !in w.book)
      && (forall x :: x in rejected ==> x.task in service && !x.filled)
      && left.Keys == snapshot.Keys && (forall c :: c in left ==> 0 <= left[c] == snapshot[c] - Reserved(log, c))
      && NonePassedOver(w, service, internalQuery(UsedBy(r.value.service)), external, r.value, rejected, left)
    ensures r.Some? ==> var internals := internalQuery(UsedBy(r.value.service));
      && ServiceBuilt(w, service, turns.service, r.value) && ServiceRefused(w, service, turns.refused, rejected)
      && InternalBuilt(w, internals, turns.internals, r.value)
      && ExternalBuilt(w, external, turns.external, r.value)
    ensures r.Some? && Injective(w.memo) ==> DistinctMemos(r.value)
    ensures r.Some? ==>
      ServedInTurn(w, snapshot, service, internalQuery(UsedBy(r.value.service)), external, turns, left)
  {
    hide ServiceMessage, InternalMessage, ExternalMessage, KeyOf, DistinctKeys, NonePassedOver, ServiceHandled,
         InternalHandled, ExternalHandled, ServiceTaskOk, InternalTaskOk, ExternalTaskOk;
    hide ServiceBuilt, InternalBuilt, ExternalBuilt, ServiceRefused, Injective, Served, ServiceClaims, InternalClaims,
         ExternalClaims, ServedInTurn, ServiceInv, InternalInv, ExternalInv, Sound, Described, CarriedTon,
         CarriedJetton, Reserved, Consistent;
    var b := new Balances(snapshot);
    var ok, acc;
    ghost var at, no, at2, at3;
    ok, acc, rejected, log, at, no := AddService(w, b, service, snapshot);
    turns := Turns(at, no, [], []);
    if !ok { return None, rejected, b.amounts, log, turns; }
    ServiceEnds(w, service, snapshot, b.amounts, log, acc, rejected);
    var used := UsedBy(acc.service);
    ghost var left1, log1 := b.amounts, log;
    var tasks := internalQuery(used);
    forall t, x | t in tasks && x in acc.service ensures x.task.deposit != w.proxy(t.subwallet) {
      var i :| 0 <= i < |acc.service| && acc.service[i] == x;
      assert used[i] == x.task.deposit;
    }
    var withInternal;
    withInternal, log, at2 := AddInternal(w, b, acc, tasks, snapshot, log);
    InternalEnds(w, tasks, snapshot, b.amounts, log, acc, withInternal);
    turns := turns.(internals := at2);
    KeptMessages(w, service, tasks, turns, acc, withInternal);
    var all;
    ghost var left2, log2 := b.amounts, log;
    all, log, at3 := AddExternal(w, b, withInternal, external, snapshot, log);
    ExternalEnds(w, external, snapshot, b.amounts, log, withInternal, all);
    KeptMessages(w, service, tasks, turns, withInternal, all);
    turns := turns.(external := at3);
    r, left := Some(all), b.amounts;
    AllHandled(w, service, tasks, external, snapshot, left1, left2, left, log1, log2, log, acc, withInternal, all,
      rejected);
    ServedByAll(w, snapshot, service, tasks, external, turns, left1, left2, left);
  }
}
