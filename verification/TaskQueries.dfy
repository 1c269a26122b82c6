/** The two queries that pick internal-withdrawal tasks, as the relational algebra they denote, and the
  * simple per-deposit rule they are meant to compute. */
module TaskQueries {
  import opened Base
  import opened Ledger

  datatype JettonWallet = JettonWallet(subwallet: nat, currency: Currency, kind: WalletType)
  datatype TonWallet = TonWallet(address: Address, kind: WalletType)

  /** Jetton wallets are keyed by their unique address, TON wallets by their unique subwallet id. */
  datatype Wallets = Wallets(jetton: map<Address, JettonWallet>, ton: map<nat, TonWallet>)

  datatype Db = Db(incomes: multiset<ExternalIncome>, rows: map<Uuid, IntRow>, wallets: Wallets)

  // ---- SQL ----

  /** The MAX aggregate: null on no rows. */
  ghost function MaxOf(s: set<nat>): (r: Option<nat>)
    ensures r.None? <==> s == {}
    ensures r.Some? ==> r.value in s && forall x :: x in s ==> x <= r.value
  {
    if s == {} then None
    else
      var x :| x in s;
      match MaxOf(s - {x})
      case None => assert s == {x}; Some(x)
      case Some(y) => assert forall z :: z in s ==> z == x || z in s - {x}; Some(if x > y then x else y)
  }

  /** Withdrawals that have not failed. */
  predicate Live(rows: map<Uuid, IntRow>, m: Uuid, d: Address) {
    m in rows && rows[m].deposit == d && !rows[m].failed
  }

  /** The inner-most subquery. */
  ghost function LatestSince(rows: map<Uuid, IntRow>, d: Address): Option<nat> {
    MaxOf(set m | m in rows && Live(rows, m, d) :: rows[m].sinceLt)
  }

  datatype Latest = Latest(deposit: Address, since: nat, finish: Option<nat>)

  /** Rows whose since_lt equals that maximum. The comparison ranges over failed rows as well. */
  ghost function LatestRows(rows: map<Uuid, IntRow>): set<Latest> {
    set m | m in rows && LatestSince(rows, rows[m].deposit) == Some(rows[m].sinceLt)
      :: Latest(rows[m].deposit, rows[m].sinceLt, rows[m].finishLt)
  }

  datatype Joined = Joined(deposit: Address, lt: nat, since: Option<nat>, finish: Option<nat>)

  ghost predicate Unmatched(latest: set<Latest>, d: Address) {
    forall l :: l in latest ==> l.deposit != d
  }

  /** Incomes LEFT JOIN latest rows. */
  ghost function Join(db: Db): set<Joined> {
    var latest := LatestRows(db.rows);
    (set i, l | i in db.incomes && l in latest && l.deposit == i.to :: Joined(i.to, i.lt, Some(l.since), l.finish))
    + (set i | i in db.incomes && Unmatched(latest, i.to) :: Joined(i.to, i.lt, None, None))
  }

  predicate JettonWhere(j: Joined) {
    (j.since.Some? && j.lt > j.since.value && j.finish.Some?) || j.since.None?
  }

  predicate TonWhere(j: Joined) {
    (j.since.Some? && j.finish.Some? && j.lt > j.finish.value) || j.since.None?
  }

  ghost function JettonLts(db: Db, d: Address): set<nat> {
    set j | j in Join(db) && j.deposit == d && JettonWhere(j) :: j.lt
  }

  ghost function TonLts(db: Db, d: Address): set<nat> {
    set j | j in Join(db) && j.deposit == d && TonWhere(j) :: j.lt
  }

  /** A missing owner makes the test null, hence not true, unless the list is empty. */
  predicate NotExcluded(w: Wallets, subwallet: nat, excluded: set<Address>) {
    excluded == {} || (subwallet in w.ton && w.ton[subwallet].address !in excluded)
  }

  predicate Withdrawable(w: Wallets, d: Address, excluded: set<Address>) {
    d in w.jetton && w.jetton[d].kind == JettonDeposit && NotExcluded(w, w.jetton[d].subwallet, excluded)
  }

  /** The jetton query before LIMIT. */
  ghost function JettonQuery(db: Db, excluded: set<Address>): set<InternalTask> {
    set d | d in db.wallets.jetton && Withdrawable(db.wallets, d, excluded) && JettonLts(db, d) != {}
      :: InternalTask(d, db.wallets.jetton[d].subwallet, MaxOf(JettonLts(db, d)).value, db.wallets.jetton[d].currency)
  }

  /** The TON query before LIMIT. */
  ghost function TonQuery(db: Db): set<InternalTask> {
    set s | s in db.wallets.ton && db.wallets.ton[s].kind == TonDeposit && TonLts(db, db.wallets.ton[s].address) != {}
      :: InternalTask(db.wallets.ton[s].address, s, MaxOf(TonLts(db, db.wallets.ton[s].address)).value, Ton)
  }

  // ---- The rule ----

  ghost function IncomeLts(db: Db, d: Address): set<nat> {
    set i | i in db.incomes && i.to == d :: i.lt
  }

  /** A withdrawal under way: neither failed nor finished. */
  predicate InFlight(rows: map<Uuid, IntRow>, m: Uuid, d: Address) {
    Live(rows, m, d) && rows[m].finishLt.None?
  }

  ghost predicate Pending(rows: map<Uuid, IntRow>, d: Address) {
    exists m :: InFlight(rows, m, d)
  }

  /** A finished withdrawal, started no earlier than every income. */
  ghost predicate Covered(db: Db, d: Address) {
    && !Pending(db.rows, d)
    && exists m :: Live(db.rows, m, d) && forall lt :: lt in IncomeLts(db, d) ==> lt <= db.rows[m].sinceLt
  }

  /** Income newer than every withdrawal so far, none of which is under way. */
  ghost predicate JettonDue(db: Db, d: Address) {
    && IncomeLts(db, d) != {} && !Pending(db.rows, d)
    && forall m :: Live(db.rows, m, d) ==> MaxOf(IncomeLts(db, d)).value > db.rows[m].sinceLt
  }

  ghost predicate Newest(rows: map<Uuid, IntRow>, m: Uuid, d: Address) {
    Live(rows, m, d) && forall n :: Live(rows, n, d) ==> rows[n].sinceLt <= rows[m].sinceLt
  }

  /** Income newer than the end of the newest withdrawal, and nothing under way. */
  ghost predicate TonDue(db: Db, d: Address) {
    && IncomeLts(db, d) != {} && !Pending(db.rows, d)
    && forall m :: Newest(db.rows, m, d) ==>
         db.rows[m].finishLt.Some? && MaxOf(IncomeLts(db, d)).value > db.rows[m].finishLt.value
  }

  // ---- The state the tables are in ----

  /** A row that failed never finished, and a row finishes after it was confirmed and not before its own since_lt. */
  predicate RowOk(r: IntRow) {
    && (r.failed ==> r.finishLt.None?)
    && (r.finishLt.Some? ==> r.sendingLt.Some? && r.finishLt.value >= r.sinceLt)
  }

  /** Of two live withdrawals of a deposit, the one started first has finished. */
  ghost predicate Ordered(rows: map<Uuid, IntRow>) {
    forall m, n ::
      m in rows && n in rows && m != n && rows[m].deposit == rows[n].deposit && !rows[m].failed && !rows[n].failed ==>
      && rows[m].sinceLt != rows[n].sinceLt
      && (rows[m].finishLt.None? ==> rows[n].sinceLt < rows[m].sinceLt)
  }

  ghost predicate RowsOk(rows: map<Uuid, IntRow>) {
    (forall m :: m in rows ==> RowOk(rows[m])) && Ordered(rows)
  }

  // ---- Refinement ----

  lemma LatestIsNewest(rows: map<Uuid, IntRow>, d: Address, m: Uuid)
    ensures Newest(rows, m, d) <==> Live(rows, m, d) && LatestSince(rows, d) == Some(rows[m].sinceLt)
    ensures LatestSince(rows, d).None? <==> !exists n :: Live(rows, n, d)
  {
    var s := set n | n in rows && Live(rows, n, d) :: rows[n].sinceLt;
    if n :| Live(rows, n, d) { assert rows[n].sinceLt in s; }
    if Newest(rows, m, d) {
      assert rows[m].sinceLt in s;
      var t := MaxOf(s).value;
      var n :| n in rows && Live(rows, n, d) && rows[n].sinceLt == t;
    }
    if Live(rows, m, d) && LatestSince(rows, d) == Some(rows[m].sinceLt) {
      forall n | Live(rows, n, d) ensures rows[n].sinceLt <= rows[m].sinceLt { assert rows[n].sinceLt in s; }
    }
  }

  /** A joined withdrawal is a row, failed or not, as new as the newest live one. */
  lemma JoinedRow(db: Db, d: Address, j: Joined) returns (r: Uuid, m: Uuid)
    requires j in Join(db) && j.deposit == d && j.since.Some?
    ensures r in db.rows && db.rows[r].deposit == d && j.since == Some(db.rows[r].sinceLt)
      && j.finish == db.rows[r].finishLt
    ensures Newest(db.rows, m, d) && db.rows[m].sinceLt == db.rows[r].sinceLt && (!db.rows[r].failed ==> m == r)
  {
    var l :| l in LatestRows(db.rows) && l.deposit == d && j.since == Some(l.since) && j.finish == l.finish;
    r :| r in db.rows && LatestSince(db.rows, d) == Some(db.rows[r].sinceLt)
      && l == Latest(db.rows[r].deposit, db.rows[r].sinceLt, db.rows[r].finishLt);
    var s := set n | n in db.rows && Live(db.rows, n, d) :: db.rows[n].sinceLt;
    if db.rows[r].failed {
      m :| m in db.rows && Live(db.rows, m, d) && db.rows[m].sinceLt == MaxOf(s).value;
    } else {
      m := r;
    }
    LatestIsNewest(db.rows, d, m);
  }

  lemma JoinedNone(db: Db, d: Address, j: Joined)
    requires j in Join(db) && j.deposit == d && j.since.None?
    ensures !exists n :: Live(db.rows, n, d)
  {
    if n :| Live(db.rows, n, d) {
      var m := NewestExists(db.rows, d, n);
      NewestListed(db.rows, d, m);
    }
  }

  lemma NewestListed(rows: map<Uuid, IntRow>, d: Address, m: Uuid)
    requires Newest(rows, m, d)
    ensures Latest(d, rows[m].sinceLt, rows[m].finishLt) in LatestRows(rows)
  {
    LatestIsNewest(rows, d, m);
  }

  lemma JoinHas(db: Db, d: Address, lt: nat, m: Uuid, r: Uuid)
    requires lt in IncomeLts(db, d) && Newest(db.rows, m, d)
    requires r in db.rows && db.rows[r].deposit == d && db.rows[r].sinceLt == db.rows[m].sinceLt
    ensures Joined(d, lt, Some(db.rows[r].sinceLt), db.rows[r].finishLt) in Join(db)
  {
    LatestIsNewest(db.rows, d, m);
    var i :| i in db.incomes && i.to == d && i.lt == lt;
    assert Latest(d, db.rows[r].sinceLt, db.rows[r].finishLt) in LatestRows(db.rows);
  }

  lemma JoinHasNone(db: Db, d: Address, lt: nat)
    requires lt in IncomeLts(db, d) && !exists n :: Live(db.rows, n, d)
    ensures Joined(d, lt, None, None) in Join(db)
  {
    var i :| i in db.incomes && i.to == d && i.lt == lt;
    LatestIsNewest(db.rows, d, Uuid(seq(32, k => 0)));
    assert Unmatched(LatestRows(db.rows), d);
  }

  lemma JoinedLt(db: Db, j: Joined)
    requires j in Join(db)
    ensures j.lt in IncomeLts(db, j.deposit)
  {
    var i :| i in db.incomes && i.to == j.deposit && i.lt == j.lt;
  }

  lemma NewestExists(rows: map<Uuid, IntRow>, d: Address, n: Uuid) returns (m: Uuid)
    requires Live(rows, n, d)
    ensures Newest(rows, m, d)
  {
    var s := set k | k in rows && Live(rows, k, d) :: rows[k].sinceLt;
    assert rows[n].sinceLt in s;
    var top := MaxOf(s);
    assert top.Some?;
    m :| m in rows && Live(rows, m, d) && rows[m].sinceLt == top.value;
    forall k | Live(rows, k, d) ensures rows[k].sinceLt <= rows[m].sinceLt { assert rows[k].sinceLt in s; }
  }

  /** A finished newest withdrawal means that nothing is under way. */
  lemma NewestFinished(rows: map<Uuid, IntRow>, m: Uuid, d: Address)
    requires Ordered(rows) && Newest(rows, m, d)
    ensures rows[m].finishLt.Some? <==> !Pending(rows, d)
  {
    if rows[m].finishLt.None? {
      assert InFlight(rows, m, d);
    } else {
      forall n | Live(rows, n, d) && n != m ensures !InFlight(rows, n, d) {}
    }
  }

  lemma {:induction false} SameMax(a: set<nat>, b: set<nat>)
    requires a <= b && (b != {} ==> MaxOf(b).value in a)
    ensures a == {} <==> b == {}
    ensures b != {} ==> MaxOf(a) == MaxOf(b)
  {
    if b != {} { assert MaxOf(a).value >= MaxOf(b).value && MaxOf(a).value in b; }
  }

  /** What the join cannot tell apart: an unfinished live row and a failed row that finished, started together. */
  ghost predicate Shadowed(rows: map<Uuid, IntRow>, d: Address) {
    exists m, f :: ShadowedBy(rows, d, m, f)
  }

  ghost predicate ShadowedBy(rows: map<Uuid, IntRow>, d: Address, m: Uuid, f: Uuid) {
    && Newest(rows, m, d) && rows[m].finishLt.None?
    && f in rows && rows[f].deposit == d && rows[f].failed && rows[f].sinceLt == rows[m].sinceLt
         && rows[f].finishLt.Some?
  }

  ghost predicate NewIncome(db: Db, d: Address) {
    exists m, lt :: Newest(db.rows, m, d) && lt in IncomeLts(db, d) && lt > db.rows[m].sinceLt
  }

  lemma JettonMatch(db: Db, d: Address, j: Joined)
    requires Ordered(db.rows) && j in Join(db) && j.deposit == d && JettonWhere(j)
    ensures JettonDue(db, d) || (Shadowed(db.rows, d) && NewIncome(db, d))
  {
    hide Join, Ordered;
    JoinedLt(db, j);
    if j.since.None? {
      JoinedNone(db, d, j);
    } else {
      var r, m := JoinedRow(db, d, j);
      NewestFinished(db.rows, m, d);
      if db.rows[m].finishLt.None? {
        assert ShadowedBy(db.rows, d, m, r);
        assert NewIncome(db, d);
      }
    }
  }

  /** Exactly when the jetton query offers a deposit: when it is due, or shadowed and with new income. */
  lemma JettonOffers(db: Db, d: Address)
    requires Ordered(db.rows)
    ensures JettonLts(db, d) != {} <==> JettonDue(db, d) || (Shadowed(db.rows, d) && NewIncome(db, d))
    ensures JettonDue(db, d) ==> MaxOf(JettonLts(db, d)) == MaxOf(IncomeLts(db, d))
  {
    hide Join, Ordered;
    var all, got := IncomeLts(db, d), JettonLts(db, d);
    forall lt | lt in got ensures lt in all && (JettonDue(db, d) || (Shadowed(db.rows, d) && NewIncome(db, d))) {
      var j :| j in Join(db) && j.deposit == d && JettonWhere(j) && j.lt == lt;
      JoinedLt(db, j);
      JettonMatch(db, d, j);
    }
    if JettonDue(db, d) {
      JettonDueIsOffered(db, d);
      SameMax(got, all);
    } else if Shadowed(db.rows, d) && NewIncome(db, d) {
      var m, f :| ShadowedBy(db.rows, d, m, f);
      var n, lt :| Newest(db.rows, n, d) && lt in all && lt > db.rows[n].sinceLt;
      JoinHas(db, d, lt, m, f);
      assert lt in got;
    }
  }

  lemma JettonDueIsOffered(db: Db, d: Address)
    requires Ordered(db.rows) && JettonDue(db, d)
    ensures MaxOf(IncomeLts(db, d)).value in JettonLts(db, d)
  {
    hide Join, Ordered;
    var lt := MaxOf(IncomeLts(db, d)).value;
    if n :| Live(db.rows, n, d) {
      var m := NewestExists(db.rows, d, n);
      NewestFinished(db.rows, m, d);
      JoinHas(db, d, lt, m, m);
    } else {
      JoinHasNone(db, d, lt);
    }
  }

  /** The jetton query meets the rule on a deposit if and only if no finished failure shadows its withdrawal. */
  lemma JettonQueryExact(db: Db, d: Address)
    requires Ordered(db.rows)
    ensures (JettonLts(db, d) != {} <==> JettonDue(db, d)) <==> !(Shadowed(db.rows, d) && NewIncome(db, d))
  {
    hide Join, Ordered;
    JettonOffers(db, d);
    if m, f :| ShadowedBy(db.rows, d, m, f) { assert InFlight(db.rows, m, d); }
  }

  lemma JettonLtsMeaning(db: Db, d: Address)
    requires RowsOk(db.rows)
    ensures JettonLts(db, d) != {} <==> JettonDue(db, d)
    ensures JettonDue(db, d) ==> MaxOf(JettonLts(db, d)) == MaxOf(IncomeLts(db, d))
  {
    hide JettonLts, JettonDue, NewIncome;
    JettonOffers(db, d);
    if m, f :| ShadowedBy(db.rows, d, m, f) { assert RowOk(db.rows[f]); }
  }

  lemma TonMatchIsDue(db: Db, d: Address, j: Joined)
    requires RowsOk(db.rows) && j in Join(db) && j.deposit == d && TonWhere(j)
    ensures TonDue(db, d)
  {
    hide Join;
    JoinedLt(db, j);
    if j.since.None? {
      JoinedNone(db, d, j);
    } else {
      var r, m := JoinedRow(db, d, j);
      assert RowOk(db.rows[r]) && m == r;
      NewestFinished(db.rows, m, d);
      forall n | Newest(db.rows, n, d) ensures n == m {}
    }
  }

  lemma TonLtsMeaning(db: Db, d: Address)
    requires RowsOk(db.rows)
    ensures TonLts(db, d) != {} <==> TonDue(db, d)
    ensures TonDue(db, d) ==> MaxOf(TonLts(db, d)) == MaxOf(IncomeLts(db, d))
  {
    hide Join, Ordered;
    var all, got := IncomeLts(db, d), TonLts(db, d);
    forall lt | lt in got ensures lt in all && TonDue(db, d) {
      var j :| j in Join(db) && j.deposit == d && TonWhere(j) && j.lt == lt;
      JoinedLt(db, j);
      TonMatchIsDue(db, d, j);
    }
    if TonDue(db, d) {
      var lt := MaxOf(all).value;
      if n :| Live(db.rows, n, d) {
        var m := NewestExists(db.rows, d, n);
        JoinHas(db, d, lt, m, m);
      } else {
        JoinHasNone(db, d, lt);
      }
      assert lt in got;
      SameMax(got, all);
    }
  }

  /** Query refinement: the task set is exactly one task per deposit that is due and whose owner, if any address is
    * excluded, is known and not excluded. */
  lemma JettonQueryRefines(db: Db, excluded: set<Address>, t: InternalTask)
    requires RowsOk(db.rows)
    ensures t in JettonQuery(db, excluded) <==>
      && t.deposit in db.wallets.jetton
      && db.wallets.jetton[t.deposit] == JettonWallet(t.subwallet, t.currency, JettonDeposit)
      && (excluded != {} ==>
            t.subwallet in db.wallets.ton && db.wallets.ton[t.subwallet].address !in excluded)
      && JettonDue(db, t.deposit) && t.lt == MaxOf(IncomeLts(db, t.deposit)).value
  {
    hide JettonLts, JettonDue, IncomeLts, RowsOk;
    JettonLtsMeaning(db, t.deposit);
  }

  lemma TonQueryRefines(db: Db, t: InternalTask)
    requires RowsOk(db.rows)
    ensures t in TonQuery(db) <==>
      && t.subwallet in db.wallets.ton && db.wallets.ton[t.subwallet] == TonWallet(t.deposit, TonDeposit)
      && TonDue(db, t.deposit) && t.lt == MaxOf(IncomeLts(db, t.deposit)).value && t.currency == Ton
  {
    hide TonLts, TonDue, IncomeLts, RowsOk;
    TonLtsMeaning(db, t.deposit);
  }

  /** Every jetton deposit with income is pending, covered by a finished withdrawal, or offered by the query: one of the
    * three. */
  lemma PendingCoveredOrDue(db: Db, d: Address, excluded: set<Address>)
    requires RowsOk(db.rows) && IncomeLts(db, d) != {} && Withdrawable(db.wallets, d, excluded)
    ensures var offered := exists t :: t in JettonQuery(db, excluded) && t.deposit == d;
      && (Pending(db.rows, d) || Covered(db, d) || offered)
      && !(Pending(db.rows, d) && Covered(db, d)) && !(Pending(db.rows, d) && offered) && !(Covered(db, d) && offered)
  {
    hide JettonQuery, RowsOk, IncomeLts;
    var w := db.wallets.jetton[d];
    var t := InternalTask(d, w.subwallet, MaxOf(IncomeLts(db, d)).value, w.currency);
    JettonQueryRefines(db, excluded, t);
    forall u | u in JettonQuery(db, excluded) && u.deposit == d ensures JettonDue(db, d) {
      JettonQueryRefines(db, excluded, u);
    }
    if !Pending(db.rows, d) && !JettonDue(db, d) {
      var m :| Live(db.rows, m, d) && MaxOf(IncomeLts(db, d)).value <= db.rows[m].sinceLt;
      assert Covered(db, d);
    }
  }

  /** Such a shadow: a failed row that carries a finish_lt makes the query hand out a deposit whose withdrawal is under
    * way. */
  lemma FinishedFailureBreaksQuery() returns (db: Db, d: Address)
    ensures Ordered(db.rows) && JettonLts(db, d) != {} && Pending(db.rows, d)
  {
    hide MaxOf, Join;
    d := Addr(seq(256, i => false));
    var live, failed := Uuid(seq(32, i => 1)), Uuid(seq(32, i => 2));
    assert live.digits[0] == 1 && failed.digits[0] == 2;
    var rows :=
      map[live := IntRow(d, 1, 0, None, None, 0, false), failed := IntRow(d, 1, 0, Some(2), Some(3), 0, true)];
    var income := ExternalIncome(4, 0, None, d, 5, []);
    db := Db(multiset{income}, rows, Wallets(map[], map[]));
    assert Newest(rows, live, d);
    assert ShadowedBy(rows, d, live, failed);
    assert income in db.incomes && 4 in IncomeLts(db, d);
    assert NewIncome(db, d);
    assert InFlight(rows, live, d);
    JettonOffers(db, d);
  }
}
