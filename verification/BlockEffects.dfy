/** What applying the internal part of a block does to each row: acceptance and effect of a list of
  * income, sending and withdrawal events of any length. */
module BlockEffects {
  import opened Base
  import opened Ledger
  import opened Uuids
  import opened BlockApplication

  // ---- Totals ----

  ghost function Total(f: map<nat, int>): int {
    if f == map[] then 0 else var k :| k in f; f[k] + Total(f - {k})
  }

  lemma {:induction false} TotalTake(f: map<nat, int>, k: nat)
    requires k in f
    ensures Total(f) == f[k] + Total(f - {k})
  {
    var l :| l in f && Total(f) == f[l] + Total(f - {l});
    if l != k {
      TotalTake(f - {l}, k);
      TotalTake(f - {k}, l);
      assert f - {l} - {k} == f - {k} - {l};
    }
  }

  lemma TotalPut(f: map<nat, int>, k: nat, v: int)
    requires k !in f
    ensures Total(f[k := v]) == Total(f) + v
  {
    TotalTake(f[k := v], k);
    assert f[k := v] - {k} == f;
  }

  lemma TotalNone()
    ensures Total(map[]) == 0
  {}

  lemma {:induction false} TotalUnion(f: map<nat, int>, g: map<nat, int>)
    requires f.Keys !! g.Keys
    ensures Total(f + g) == Total(f) + Total(g)
    decreases g.Keys
  {
    hide Total;
    if g == map[] {
      TotalNone();
      assert f + g == f;
    } else {
      var k :| k in g;
      var rest := g - {k};
      assert g == rest[k := g[k]];
      TotalPut(rest, k, g[k]);
      TotalUnion(f, rest);
      assert f + g == (f + rest)[k := g[k]];
      TotalPut(f + rest, k, g[k]);
    }
  }

  /** A part of a map of non-negative amounts totals no more than the whole. */
  lemma {:induction false} TotalPart(f: map<nat, int>, g: map<nat, int>)
    requires g.Keys <= f.Keys && (forall k :: k in g ==> g[k] == f[k]) && forall k :: k in f ==> f[k] >= 0
    ensures 0 <= Total(g) <= Total(f)
    decreases f.Keys
  {
    hide Total;
    TotalNone();
    if f == map[] {
      assert g == map[];
    } else {
      var k :| k in f;
      TotalTake(f, k);
      if k in g { TotalTake(g, k); TotalPart(f - {k}, g - {k}); }
      else { assert g - {k} == g; TotalPart(f - {k}, g); }
    }
  }

  // ---- Sending confirmations ----

  predicate SendsIn(es: seq<SendingConfirmation>, m: Uuid) { exists e :: e in es && ParseUuid(e.memo) == Some(m) }

  /** The time of the last confirmation of a memo. */
  function LastSent(es: seq<SendingConfirmation>, m: Uuid): (lt: Option<nat>)
    ensures lt.Some? <==> SendsIn(es, m)
  {
    if es == [] then None
    else
      assert es == es[..|es| - 1] + [es[|es| - 1]];
      if ParseUuid(es[|es| - 1].memo) == Some(m) then Some(es[|es| - 1].lt) else LastSent(es[..|es| - 1], m)
  }

  predicate Sendable(rows: map<Uuid, IntRow>, e: SendingConfirmation) {
    match ParseUuid(e.memo) case None => false case Some(m) => m in rows && !rows[m].failed
  }

  ghost predicate AllSendable(rows: map<Uuid, IntRow>, es: seq<SendingConfirmation>) {
    forall i :: 0 <= i < |es| ==> Sendable(rows, es[i])
  }

  function OrElse(a: Option<nat>, b: Option<nat>): Option<nat> { if a.Some? then a else b }

  function SentRow(r: IntRow, es: seq<SendingConfirmation>, m: Uuid): IntRow {
    r.(sendingLt := OrElse(LastSent(es, m), r.sendingLt))
  }

  ghost predicate SentBy(rows: map<Uuid, IntRow>, es: seq<SendingConfirmation>, after: map<Uuid, IntRow>) {
    after.Keys == rows.Keys && forall m :: m in rows ==> after[m] == SentRow(rows[m], es, m)
  }

  /** A list of confirmations is accepted exactly when each is of a known row that has not failed; the last one of a
    * memo counts. */
  lemma {:induction false} SendingsExact(t: Tables, es: seq<SendingConfirmation>)
    ensures var r := ApplyChanges(t, SendingChanges(es));
      && (r.Ok? <==> AllSendable(t.internals, es))
      && (r.Ok? ==> r.value == t.(internals := r.value.internals) && SentBy(t.internals, es, r.value.internals))
    decreases |es|
  {
    hide ParseUuid, SentBy, LastSent, AllSendable;
    if es == [] {
      NothingSent(t.internals);
      assert SendingChanges(es) == [];
    } else {
      var n := |es| - 1;
      var init := es[..n];
      SendingsExact(t, init);
      assert SendingChanges(es) == SendingChanges(init) + [Sending(es[n])];
      ApplyLast(t, SendingChanges(init), Sending(es[n]));
      MoreSendable(t.internals, es);
      var r := ApplyChanges(t, SendingChanges(init));
      if r.Ok? { SentStep(t.internals, es, r.value.internals); }
    }
  }

  lemma MoreSendable(rows: map<Uuid, IntRow>, es: seq<SendingConfirmation>)
    requires es != []
    ensures AllSendable(rows, es) <==> AllSendable(rows, es[..|es| - 1]) && Sendable(rows, es[|es| - 1])
  {
    hide ParseUuid;
  }

  lemma NothingSent(rows: map<Uuid, IntRow>)
    ensures SentBy(rows, [], rows) && AllSendable(rows, [])
  {}

  lemma SentStep(rows: map<Uuid, IntRow>, es: seq<SendingConfirmation>, now: map<Uuid, IntRow>)
    requires es != [] && SentBy(rows, es[..|es| - 1], now)
    ensures now.Keys == rows.Keys
    ensures var e := es[|es| - 1];
      forall m :: ParseUuid(e.memo) == Some(m) && m in rows ==>
        now[m].failed == rows[m].failed && SentBy(rows, es, now[m := now[m].(sendingLt := Some(e.lt))])
  {
    hide ParseUuid;
  }

  // ---- Withdrawals ----

  /** The successful departures of a memo, by logical time. */
  function Gains(ws: seq<InternalWithdrawal>, m: Uuid): map<nat, int> {
    if ws == [] then map[]
    else
      var w := ws[|ws| - 1];
      var g := Gains(ws[..|ws| - 1], m);
      if ParseUuid(w.memo) == Some(m) && !w.isFailed then g[w.lt := w.amount] else g
  }

  /** Their amounts added up, and the time of the last one. */
  function GainSum(ws: seq<InternalWithdrawal>, m: Uuid): int {
    if ws == [] then 0
    else
      var w := ws[|ws| - 1];
      GainSum(ws[..|ws| - 1], m) + if ParseUuid(w.memo) == Some(m) && !w.isFailed then w.amount else 0
  }

  function LastGain(ws: seq<InternalWithdrawal>, m: Uuid): Option<nat> {
    if ws == [] then None
    else
      var w := ws[|ws| - 1];
      if ParseUuid(w.memo) == Some(m) && !w.isFailed then Some(w.lt) else LastGain(ws[..|ws| - 1], m)
  }

  lemma {:induction false} GainsKeys(ws: seq<InternalWithdrawal>, m: Uuid, lt: nat)
    ensures lt in Gains(ws, m) <==> exists w :: w in ws && ParseUuid(w.memo) == Some(m) && w.lt == lt && !w.isFailed
    decreases |ws|
  {
    if ws != [] {
      var n := |ws| - 1;
      GainsKeys(ws[..n], m, lt);
      assert ws == ws[..n] + [ws[n]];
    }
  }

  /** No two successes share memo and time. */
  predicate DistinctGains(ws: seq<InternalWithdrawal>) {
    forall i, j :: 0 <= i < j < |ws| && !ws[i].isFailed && !ws[j].isFailed ==>
      (ParseUuid(ws[i].memo), ws[i].lt) != (ParseUuid(ws[j].memo), ws[j].lt)
  }

  /** The successes of each memo come in the order of their times. */
  predicate GainsInOrder(ws: seq<InternalWithdrawal>) {
    forall i, j :: 0 <= i < j < |ws| && !ws[i].isFailed && !ws[j].isFailed && SameMemo(ws[i], ws[j]) ==>
      ws[i].lt < ws[j].lt
  }

  lemma {:induction false} GainsValues(ws: seq<InternalWithdrawal>, w: InternalWithdrawal, m: Uuid)
    requires DistinctGains(ws) && w in ws && !w.isFailed && ParseUuid(w.memo) == Some(m)
    ensures w.lt in Gains(ws, m) && Gains(ws, m)[w.lt] == w.amount
    decreases |ws|
  {
    var n := |ws| - 1;
    assert ws == ws[..n] + [ws[n]];
    if ws[n] != w { GainsValues(ws[..n], w, m); }
  }

  lemma {:induction false} GainSumIsTotal(ws: seq<InternalWithdrawal>, m: Uuid)
    requires DistinctGains(ws)
    ensures GainSum(ws, m) == Total(Gains(ws, m))
    decreases |ws|
  {
    hide Total;
    if ws == [] {
      TotalNone();
    } else {
      var n := |ws| - 1;
      var w := ws[n];
      GainSumIsTotal(ws[..n], m);
      if ParseUuid(w.memo) == Some(m) && !w.isFailed {
        GainsKeys(ws[..n], m, w.lt);
        TotalPut(Gains(ws[..n], m), w.lt, w.amount);
      }
    }
  }

  /** In order, the last success is the greatest. */
  lemma {:induction false} LastGainIsGreatest(ws: seq<InternalWithdrawal>, m: Uuid)
    requires GainsInOrder(ws)
    ensures LastGain(ws, m).None? <==> Gains(ws, m) == map[]
    ensures LastGain(ws, m).Some? ==> LastGain(ws, m).value in Gains(ws, m) && forall lt :: lt in Gains(ws, m) ==>
      lt <= LastGain(ws, m).value
    decreases |ws|
  {
    if ws != [] {
      var n := |ws| - 1;
      LastGainIsGreatest(ws[..n], m);
      if ParseUuid(ws[n].memo) == Some(m) && !ws[n].isFailed {
        forall lt | lt in Gains(ws[..n], m) ensures lt < ws[n].lt {
          GainsKeys(ws[..n], m, lt);
          var w :| w in ws[..n] && ParseUuid(w.memo) == Some(m) && w.lt == lt && !w.isFailed;
          var i :| 0 <= i < n && ws[i] == w;
        }
        assert ws[n].lt in Gains(ws, m);
      }
    }
  }

  predicate FailsIn(ws: seq<InternalWithdrawal>, m: Uuid) {
    exists w :: w in ws && ParseUuid(w.memo) == Some(m) && w.isFailed
  }

  /** However spelled, the same memo. */
  predicate SameMemo(v: InternalWithdrawal, w: InternalWithdrawal) { ParseUuid(v.memo) == ParseUuid(w.memo) }

  predicate NoFailure(ws: seq<InternalWithdrawal>, w: InternalWithdrawal) {
    forall v :: v in ws && SameMemo(v, w) ==> !v.isFailed
  }

  /** A failure is the last event of its memo. */
  predicate FailuresLast(ws: seq<InternalWithdrawal>) {
    forall i, j :: 0 <= i < j < |ws| && SameMemo(ws[i], ws[j]) ==> !ws[i].isFailed
  }

  predicate Completable(rows: map<Uuid, IntRow>, w: InternalWithdrawal) {
    match ParseUuid(w.memo) case None => false case Some(m) => m in rows && !rows[m].failed && rows[m].sendingLt.Some?
  }

  ghost predicate AllCompletable(rows: map<Uuid, IntRow>, ws: seq<InternalWithdrawal>) {
    forall i :: 0 <= i < |ws| ==> Completable(rows, ws[i])
  }

  function WithdrawnRow(r: IntRow, ws: seq<InternalWithdrawal>, m: Uuid): IntRow {
    r.(failed := r.failed || FailsIn(ws, m), finishLt := OrElse(LastGain(ws, m), r.finishLt),
      amount := r.amount + GainSum(ws, m))
  }

  ghost predicate WithdrawnBy(rows: map<Uuid, IntRow>, ws: seq<InternalWithdrawal>, after: map<Uuid, IntRow>) {
    after.Keys == rows.Keys && forall m :: m in rows ==> after[m] == WithdrawnRow(rows[m], ws, m)
  }

  /** A list of withdrawals is accepted exactly when each is of a known, sent row that has not failed and no failure has
    * a successor; amounts add up, replays included, and the last success sets the time. */
  lemma {:induction false} WithdrawalsExact(t: Tables, ws: seq<InternalWithdrawal>)
    ensures var r := ApplyChanges(t, InternalChanges(ws));
      && (r.Ok? <==> AllCompletable(t.internals, ws) && FailuresLast(ws))
      && (r.Ok? ==> r.value == t.(internals := r.value.internals) && WithdrawnBy(t.internals, ws, r.value.internals))
    decreases |ws|
  {
    hide ParseUuid, WithdrawnBy, AllCompletable, FailuresLast, GainSum, LastGain, Completable;
    if ws == [] {
      NothingWithdrawn(t.internals);
      assert InternalChanges(ws) == [];
    } else {
      var n := |ws| - 1;
      var init, w := ws[..n], ws[n];
      WithdrawalsExact(t, init);
      assert InternalChanges(ws) == InternalChanges(init) + [Internal(w)];
      ApplyLast(t, InternalChanges(init), Internal(w));
      MoreCompletable(t.internals, ws);
      var r := ApplyChanges(t, InternalChanges(init));
      if r.Ok? { WithdrawnStep(t.internals, ws, r.value.internals); }
    }
  }

  lemma NothingWithdrawn(rows: map<Uuid, IntRow>)
    ensures WithdrawnBy(rows, [], rows) && AllCompletable(rows, []) && FailuresLast([])
  {}

  lemma MoreCompletable(rows: map<Uuid, IntRow>, ws: seq<InternalWithdrawal>)
    requires ws != []
    ensures var init, w := ws[..|ws| - 1], ws[|ws| - 1];
      AllCompletable(rows, ws) && FailuresLast(ws) <==>
        AllCompletable(rows, init) && FailuresLast(init) && Completable(rows, w) && NoFailure(init, w)
  {
    hide Completable;
    var n := |ws| - 1;
    var init, w := ws[..n], ws[n];
    if !NoFailure(init, w) {
      var d :| d in init && SameMemo(d, w) && d.isFailed;
      var i :| 0 <= i < n && ws[i] == d;
    }
  }

  lemma WithdrawnStep(rows: map<Uuid, IntRow>, ws: seq<InternalWithdrawal>, now: map<Uuid, IntRow>)
    requires ws != [] && WithdrawnBy(rows, ws[..|ws| - 1], now)
    ensures var init, w := ws[..|ws| - 1], ws[|ws| - 1];
      && (UpdateInternal(now, w).Ok? <==> Completable(rows, w) && NoFailure(init, w))
      && (UpdateInternal(now, w).Ok? ==> WithdrawnBy(rows, ws, UpdateInternal(now, w).value))
  {
    hide ParseUuid;
    var n := |ws| - 1;
    assert ws == ws[..n] + [ws[n]];
    if UpdateInternal(now, ws[n]).Ok? {
      var v := UpdateInternal(now, ws[n]).value;
      forall m | m in rows ensures v[m] == WithdrawnRow(rows[m], ws, m) {
        assert FailsIn(ws, m) <==> FailsIn(ws[..n], m) || (ParseUuid(ws[n].memo) == Some(m) && ws[n].isFailed);
      }
    }
  }

  // ---- Internal incomes ----

  function KeyOfIncome(i: InternalIncome): Option<IncomeKey> {
    match ParseUuid(i.memo) case None => None case Some(m) => Some(IncomeKey(m, i.lt))
  }

  predicate DistinctIncomes(ins: seq<InternalIncome>) {
    forall i, j :: 0 <= i < j < |ins| ==> KeyOfIncome(ins[i]) != KeyOfIncome(ins[j])
  }

  predicate Receivable(incomes: map<IncomeKey, InternalIncome>, i: InternalIncome) {
    KeyOfIncome(i).Some? && KeyOfIncome(i).value !in incomes
  }

  ghost predicate AllReceivable(incomes: map<IncomeKey, InternalIncome>, ins: seq<InternalIncome>) {
    forall i :: 0 <= i < |ins| ==> Receivable(incomes, ins[i])
  }

  ghost predicate ReceivedBy(was: map<IncomeKey, InternalIncome>, ins: seq<InternalIncome>,
                             now: map<IncomeKey, InternalIncome>) {
    && (forall k :: k in was ==> k in now && now[k] == was[k])
    && (forall i :: i in ins && KeyOfIncome(i).Some? ==> KeyOfIncome(i).value in now && now[KeyOfIncome(i).value] == i)
    && forall k :: k in now && k !in was ==> exists i :: i in ins && KeyOfIncome(i) == Some(k)
  }

  /** A list of incomes is accepted exactly when memo and time of each are new; nothing recorded is overwritten. */
  lemma {:induction false} IncomesExact(t: Tables, ins: seq<InternalIncome>)
    ensures var r := ApplyChanges(t, IntIncomeChanges(ins));
      && (r.Ok? <==> DistinctIncomes(ins) && AllReceivable(t.intIncomes, ins))
      && (r.Ok? ==>
            r.value == t.(intIncomes := r.value.intIncomes) && ReceivedBy(t.intIncomes, ins, r.value.intIncomes))
    decreases |ins|
  {
    hide ParseUuid, ReceivedBy, AllReceivable, DistinctIncomes;
    if ins == [] {
      NothingReceived(t.intIncomes);
      assert IntIncomeChanges(ins) == [];
    } else {
      var n := |ins| - 1;
      var init := ins[..n];
      IncomesExact(t, init);
      assert IntIncomeChanges(ins) == IntIncomeChanges(init) + [AddIntIncome(ins[n])];
      ApplyLast(t, IntIncomeChanges(init), AddIntIncome(ins[n]));
      var r := ApplyChanges(t, IntIncomeChanges(init));
      if r.Ok? {
        ReceivedStep(t.intIncomes, ins, r.value.intIncomes);
      } else {
        MoreReceivable(t.intIncomes, ins);
      }
    }
  }

  lemma NothingReceived(was: map<IncomeKey, InternalIncome>)
    ensures ReceivedBy(was, [], was) && DistinctIncomes([]) && AllReceivable(was, [])
  {}

  lemma MoreReceivable(was: map<IncomeKey, InternalIncome>, ins: seq<InternalIncome>)
    requires ins != []
    ensures DistinctIncomes(ins) && AllReceivable(was, ins) ==>
      DistinctIncomes(ins[..|ins| - 1]) && AllReceivable(was, ins[..|ins| - 1])
  {
    hide ParseUuid;
  }

  lemma ReceivedStep(was: map<IncomeKey, InternalIncome>, ins: seq<InternalIncome>, now: map<IncomeKey, InternalIncome>)
    requires ins != [] && ReceivedBy(was, ins[..|ins| - 1], now)
    requires DistinctIncomes(ins[..|ins| - 1]) && AllReceivable(was, ins[..|ins| - 1])
    ensures var i := ins[|ins| - 1];
      && (DistinctIncomes(ins) && AllReceivable(was, ins) <==> Receivable(now, i))
      && (Receivable(now, i) ==> ReceivedBy(was, ins, now[KeyOfIncome(i).value := i]))
  {
    hide ParseUuid;
    var n := |ins| - 1;
    var init, i := ins[..n], ins[n];
    assert ins == init + [i];
    if KeyOfIncome(i).Some? && KeyOfIncome(i).value in now && KeyOfIncome(i).value !in was {
      var j :| j in init && KeyOfIncome(j) == KeyOfIncome(i);
      var p :| 0 <= p < n && ins[p] == j;
    }
    if KeyOfIncome(i).Some? && KeyOfIncome(i).value !in now {
      forall p | 0 <= p < n ensures KeyOfIncome(ins[p]) != KeyOfIncome(i) { assert ins[p] in init; }
    }
  }

  lemma {:induction false} ExtIncomesEffect(t: Tables, es: seq<ExternalIncome>)
    ensures ApplyChanges(t, ExtIncomeChanges(es)) == Ok(t.(extIncomes := t.extIncomes + multiset(es)))
    decreases |es|
  {
    if es != [] {
      var n := |es| - 1;
      ExtIncomesEffect(t, es[..n]);
      assert es == es[..n] + [es[n]];
      assert ExtIncomeChanges(es) == ExtIncomeChanges(es[..n]) + [AddExtIncome(es[n])];
      ApplyLast(t, ExtIncomeChanges(es[..n]), AddExtIncome(es[n]));
      assert t.extIncomes + multiset(es[..n]) + multiset{es[n]} == t.extIncomes + multiset(es);
    } else {
      assert ExtIncomeChanges(es) == [] && t.extIncomes + multiset(es) == t.extIncomes;
    }
  }

  // ---- A whole block ----

  /** Everything but the external withdrawals and their confirmations. */
  function InnerChanges(e: Events): seq<Change> {
    ExtIncomeChanges(e.extIncomes) + IntIncomeChanges(e.intIncomes) + SendingChanges(e.sendings)
      + InternalChanges(e.intWithdrawals)
  }

  /** What the tables accept of a block's internal events. */
  ghost predicate Admissible(t: Tables, e: Events) {
    && DistinctIncomes(e.intIncomes) && AllReceivable(t.intIncomes, e.intIncomes)
    && AllSendable(t.internals, e.sendings)
    && FailuresLast(e.intWithdrawals) && AllReady(t.internals, e)
  }

  /** Each withdrawal is of a known row that has not failed and was sent before, or is in this block. */
  ghost predicate AllReady(rows: map<Uuid, IntRow>, e: Events) {
    forall i :: 0 <= i < |e.intWithdrawals| ==> Ready(rows, e.sendings, e.intWithdrawals[i])
  }

  predicate Ready(rows: map<Uuid, IntRow>, es: seq<SendingConfirmation>, w: InternalWithdrawal) {
    match ParseUuid(w.memo)
    case None => false
    case Some(m) => m in rows && !rows[m].failed && (rows[m].sendingLt.Some? || SendsIn(es, m))
  }

  /** A row after a block: confirmed, then withdrawn. */
  function RowAfter(r: IntRow, e: Events, m: Uuid): IntRow {
    WithdrawnRow(SentRow(r, e.sendings, m), e.intWithdrawals, m)
  }

  ghost predicate BlockDone(t: Tables, e: Events, u: Tables) {
    && u.external == t.external && u.blocks == t.blocks && u.extIncomes == t.extIncomes + multiset(e.extIncomes)
    && ReceivedBy(t.intIncomes, e.intIncomes, u.intIncomes)
    && u.internals.Keys == t.internals.Keys && forall m :: m in t.internals ==>
         u.internals[m] == RowAfter(t.internals[m], e, m)
  }

  /** A block's internal events are accepted exactly when they fit the tables, and this is what they leave behind. */
  lemma {:induction false} InnerExact(t: Tables, e: Events)
    ensures var r := ApplyChanges(t, InnerChanges(e));
      (r.Ok? <==> Admissible(t, e)) && (r.Ok? ==> BlockDone(t, e, r.value))
  {
    hide ApplyChanges, SentBy, WithdrawnBy, ReceivedBy, AllSendable, AllReceivable, AllReady, AllCompletable,
         FailuresLast, DistinctIncomes, SentRow, WithdrawnRow;
    var c1, c2, c3, c4 := ExtIncomeChanges(e.extIncomes), IntIncomeChanges(e.intIncomes), SendingChanges(e.sendings),
      InternalChanges(e.intWithdrawals);
    ApplyConcat(t, c1 + c2 + c3, c4);
    ApplyConcat(t, c1 + c2, c3);
    ApplyConcat(t, c1, c2);
    ExtIncomesEffect(t, e.extIncomes);
    var t1 := ApplyChanges(t, c1).value;
    IncomesExact(t1, e.intIncomes);
    if ApplyChanges(t1, c2).Ok? {
      var t2 := ApplyChanges(t1, c2).value;
      SendingsExact(t2, e.sendings);
      if ApplyChanges(t2, c3).Ok? {
        var t3 := ApplyChanges(t2, c3).value;
        WithdrawalsExact(t3, e.intWithdrawals);
        ReadyAfter(t.internals, e, t3.internals);
        if ApplyChanges(t3, c4).Ok? { BothSteps(t.internals, e, t3.internals, ApplyChanges(t3, c4).value.internals); }
      }
    }
  }

  lemma ReadyAfter(rows: map<Uuid, IntRow>, e: Events, sent: map<Uuid, IntRow>)
    requires SentBy(rows, e.sendings, sent)
    ensures AllCompletable(sent, e.intWithdrawals) <==> AllReady(rows, e)
  {
    hide ParseUuid;
    forall i | 0 <= i < |e.intWithdrawals|
      ensures Completable(sent, e.intWithdrawals[i]) <==> Ready(rows, e.sendings, e.intWithdrawals[i]) {}
  }

  lemma BothSteps(rows: map<Uuid, IntRow>, e: Events, sent: map<Uuid, IntRow>, after: map<Uuid, IntRow>)
    requires SentBy(rows, e.sendings, sent) && WithdrawnBy(sent, e.intWithdrawals, after)
    ensures after.Keys == rows.Keys && forall m :: m in rows ==> after[m] == RowAfter(rows[m], e, m)
  {
    hide SentRow, WithdrawnRow;
  }

  predicate OuterOnly(cs: seq<Change>) { forall c :: c in cs ==> c.Extern? || c.Confirmation? }

  lemma {:induction false} OuterKeepsInner(t: Tables, cs: seq<Change>)
    requires OuterOnly(cs)
    ensures var r := ApplyChanges(t, cs); r.Ok? ==> r.value == t.(external := r.value.external)
    decreases |cs|
  {
    hide ApplyChange;
    if cs != [] {
      var n := |cs| - 1;
      OuterKeepsInner(t, cs[..n]);
      var r := ApplyChanges(t, cs[..n]);
      if r.Ok? { OuterStep(r.value, cs[n]); }
    }
  }

  lemma OuterStep(t: Tables, c: Change)
    requires c.Extern? || c.Confirmation?
    ensures var r := ApplyChange(t, c); r.Ok? ==> r.value == t.(external := r.value.external)
  {
    hide UpdateExternal, ConfirmExternal;
  }

  /** Whatever external events come with them, an accepted block had internal events that fit, and leaves the same
    * internal tables. */
  lemma BlockEffect(t: Tables, b: BlockEvents)
    ensures var r := ApplyBlock(t, b);
      r.Ok? ==>
        && Admissible(t, b.events)
        && exists u :: BlockDone(t, b.events, u)
             && r.value == u.(external := r.value.external, blocks := t.blocks[b.key := b.genUtime])
  {
    hide Admissible, BlockDone, ApplyChange;
    var e := b.events;
    var outer := ExternalChanges(e.extWithdrawals) + ConfirmationChanges(e.confirmations);
    InnerExact(t, e);
    assert ChangesOf(e) == InnerChanges(e) + outer;
    ApplyConcat(t, InnerChanges(e), outer);
    if ApplyChanges(t, InnerChanges(e)).Ok? {
      var u := ApplyChanges(t, InnerChanges(e)).value;
      OuterKeepsInner(u, outer);
      ChangesKeepBlocks(t, InnerChanges(e));
      assert BlockDone(t, e, u);
    }
  }
}
