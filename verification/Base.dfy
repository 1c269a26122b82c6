/** Values shared by every part of the payment processor. */
module Base {

  datatype Option<+T> = None | Some(value: T) {
    predicate IsFailure() { None? }
    function PropagateFailure<U>(): Option<U> requires None? { None }
    function Extract(): T requires Some? { value }
  }

  datatype Result<+T, +E> = Ok(value: T) | Err(error: E)

  type Byte = n: nat | n < 256

  type Text = seq<Byte>

  type Bits256 = b: seq<bool> | |b| == 256 witness seq(256, i => false)

  /** A standard address of workchain 0 (the only kind the service stores). */
  datatype Address = Addr(bits: Bits256)

  datatype WalletType = TonHot | JettonHot | TonDeposit | JettonDeposit | JettonOwner

  type AddressBook = map<Address, WalletType>

  datatype Currency = Ton | Jetton(symbol: Text)

  /** The numbers from `a` up to `b`. */
  function Between(a: nat, b: nat): (s: set<nat>)
    ensures forall n :: n in s <==> a <= n < b
  {
    if a >= b then {} else Between(a, b - 1) + {b - 1}
  }

  /** Positions of a list of `n`, in order and each once. */
  predicate InTurn(at: seq<nat>, n: nat) {
    (forall k :: 0 <= k < |at| ==> at[k] < n) && forall k, l :: 0 <= k < l < |at| ==> at[k] < at[l]
  }

  /** The positions of the true entries. */
  function Trues(flags: seq<bool>): (at: seq<nat>)
    ensures InTurn(at, |flags|) && forall i: nat :: i < |flags| ==> (i in at <==> flags[i])
  {
    if flags == [] then []
    else
      var n := |flags| - 1;
      var at := Trues(flags[..n]);
      assert forall i: nat :: i < n ==> flags[..n][i] == flags[i];
      if flags[n] then at + [n] else at
  }

  lemma {:induction false} TruesLast(flags: seq<bool>)
    requires flags != []
    ensures var n := |flags| - 1;
      Trues(flags) == Trues(flags[..n]) + if flags[n] then [n] else []
  {}

  /** Nanoseconds of Unix time. */
  type Time = int

  const SECOND: Time := 1_000_000_000
  const ALLOWABLE_LAG: Time := 15 * SECOND
  const LIFETIME: Time := 50 * SECOND

  /** The TTL of a message built now: whole seconds of Unix time. */
  function TtlAt(now: Time): (ttl: Time)
    ensures ttl % SECOND == 0 && now + LIFETIME - SECOND < ttl <= now + LIFETIME
  {
    (now + LIFETIME) / SECOND * SECOND
  }

  /** The first half of the hash of an external message body; assumed injective. */
  datatype MsgId = MsgId(hash: nat)

  type Digit = n: nat | n < 16

  type Digits = s: seq<Digit> | |s| == 32 witness seq(32, i => 0)

  datatype Uuid = Uuid(digits: Digits)

  // Events a block scan produces, one record per row of the tables they touch.

  datatype ExternalIncome =
    ExternalIncome(lt: nat, utime: nat, payer: Option<Address>, to: Address, amount: int, comment: Text)

  datatype InternalIncome = InternalIncome(lt: nat, utime: nat, payer: Address, amount: int, memo: Text)

  datatype SendingConfirmation = SendingConfirmation(lt: nat, payer: Address, memo: Text)

  datatype InternalWithdrawal =
    InternalWithdrawal(lt: nat, utime: nat, payer: Address, amount: int, memo: Text, isFailed: bool)

  datatype ExternalWithdrawal =
    ExternalWithdrawal(msg: MsgId, lt: nat, utime: nat, to: Address, amount: int, comment: Text, isFailed: bool)

  datatype WithdrawalConfirmation = WithdrawalConfirmation(queryId: int)

  datatype Events = Events(
    extIncomes: seq<ExternalIncome>,
    intIncomes: seq<InternalIncome>,
    sendings: seq<SendingConfirmation>,
    intWithdrawals: seq<InternalWithdrawal>,
    extWithdrawals: seq<ExternalWithdrawal>,
    confirmations: seq<WithdrawalConfirmation>)
  {
    /** The receiver extended, kind by kind, with the events of another source. */
    function Append(e: Events): Events {
      Events(extIncomes + e.extIncomes, intIncomes + e.intIncomes, sendings + e.sendings,
             intWithdrawals + e.intWithdrawals, extWithdrawals + e.extWithdrawals, confirmations + e.confirmations)
    }
  }

  const NO_EVENTS := Events([], [], [], [], [], [])

  datatype BlockKey = BlockKey(shard: nat, seqno: nat)

  datatype BlockEvents = BlockEvents(events: Events, key: BlockKey, genUtime: Time)

  // Work units read from the tables by the processors.

  datatype ExternalTask =
    ExternalTask(queryId: int, currency: Currency, amount: nat, dest: Address, bounceable: bool, comment: Text)

  datatype InternalTask = InternalTask(deposit: Address, subwallet: nat, lt: nat, currency: Currency)

  datatype ServiceTask =
    ServiceTask(deposit: Address, subwallet: nat, master: Option<Address>, jettonAmount: nat, memo: Uuid)
}
