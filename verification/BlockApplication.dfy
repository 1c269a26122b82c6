/** Applying a scanned block. Accounts come out of a Go map, so in any order; events are applied kind by
  * kind. Given that no memo and no batch row is shared by two accounts, the order does not matter. */
module BlockApplication {
  import opened Base
  import opened Ledger
  import opened Uuids

  /** Equal outcomes, or both rejected (whichever rejection is met first). */
  predicate Same<T(==)>(a: Result<T, Rejection>, b: Result<T, Rejection>) {
    a == b || (a.Err? && b.Err?)
  }

  function Bind(a: Result<Tables, Rejection>, cs: seq<Change>): Result<Tables, Rejection> {
    match a case Ok(t) => ApplyChanges(t, cs) case Err(r) => Err(r)
  }

  lemma {:induction false} ApplyConcat(t: Tables, xs: seq<Change>, ys: seq<Change>)
    ensures ApplyChanges(t, xs + ys) == Bind(ApplyChanges(t, xs), ys)
    decreases |ys|
  {
    hide ApplyChange;
    if ys == [] {
      assert xs + ys == xs;
    } else {
      var n := |ys| - 1;
      ApplyConcat(t, xs, ys[..n]);
      assert (xs + ys)[..|xs + ys| - 1] == xs + ys[..n];
    }
  }

  /** However spelled, the two comments do not name the same row. */
  predicate MemosApart(a: Text, b: Text) {
    ParseUuid(a).None? || ParseUuid(a) != ParseUuid(b)
  }

  /** Two changes of one kind that touch different rows. Insertions of incomes and confirmations always commute. */
  predicate Independent(c: Change, d: Change) {
    match c
    case AddExtIncome(_) => d.AddExtIncome?
    case AddIntIncome(_) => d.AddIntIncome?
    case Sending(e) => d.Sending? && MemosApart(e.memo, d.sc.memo)
    case Internal(e) => d.Internal? && MemosApart(e.memo, d.iw.memo)
    case Extern(e) => d.Extern? && ExtKey(e.msg, e.to) != ExtKey(d.ew.msg, d.ew.to)
    case Confirmation(_) => d.Confirmation?
  }

  /** One more change after a result. */
  function Then(a: Result<Tables, Rejection>, c: Change): Result<Tables, Rejection> {
    match a case Ok(t) => ApplyChange(t, c) case Err(r) => Err(r)
  }

  lemma {:induction false} ApplyLast(t: Tables, xs: seq<Change>, c: Change)
    ensures ApplyChanges(t, xs + [c]) == Then(ApplyChanges(t, xs), c)
  {
    hide ApplyChange;
    assert (xs + [c])[..|xs|] == xs;
  }

  lemma {:induction false} ApplyOne(t: Tables, c: Change)
    ensures ApplyChanges(t, [c]) == ApplyChange(t, c)
  {
    hide ApplyChange;
    assert [c][..0] == [];
  }

  lemma CommuteIncomes(t: Tables, c: Change, d: Change)
    requires (c.AddExtIncome? && d.AddExtIncome?) || (c.AddIntIncome? && d.AddIntIncome?)
    ensures Same(Then(ApplyChange(t, c), d), Then(ApplyChange(t, d), c))
  {
    hide ParseUuid;
    if c.AddExtIncome? {
      assert t.extIncomes + multiset{c.ei} + multiset{d.ei} == t.extIncomes + multiset{d.ei} + multiset{c.ei};
    } else {
      if ParseUuid(c.ii.memo).Some? && ParseUuid(d.ii.memo).Some? {
        var k := IncomeKey(ParseUuid(c.ii.memo).value, c.ii.lt);
        var l := IncomeKey(ParseUuid(d.ii.memo).value, d.ii.lt);
        if k != l { assert t.intIncomes[k := c.ii][l := d.ii] == t.intIncomes[l := d.ii][k := c.ii]; }
      }
    }
  }

  lemma CommuteConfirmations(t: Tables, c: Change, d: Change)
    requires c.Confirmation? && d.Confirmation?
    ensures Same(Then(ApplyChange(t, c), d), Then(ApplyChange(t, d), c))
  {
    assert ConfirmExternal(ConfirmExternal(t.external, c.wc.queryId), d.wc.queryId)
        == ConfirmExternal(ConfirmExternal(t.external, d.wc.queryId), c.wc.queryId);
  }

  lemma Commute(t: Tables, c: Change, d: Change)
    requires Independent(c, d)
    ensures Same(Then(ApplyChange(t, c), d), Then(ApplyChange(t, d), c))
  {
    hide ApplySending, UpdateInternal, UpdateExternal, SaveIntIncome, ConfirmExternal;
    match c
    case Sending(e) => CommuteSendings(t.internals, e, d.sc);
    case Internal(e) => CommuteInternals(t.internals, e, d.iw);
    case Extern(e) => CommuteExterns(t.external, e, d.ew);
    case Confirmation(_) => CommuteConfirmations(t, c, d);
    case _ => CommuteIncomes(t, c, d);
  }

  lemma CommuteSendings(rows: map<Uuid, IntRow>, a: SendingConfirmation, b: SendingConfirmation)
    requires MemosApart(a.memo, b.memo)
    ensures var ra, rb := ApplySending(rows, a), ApplySending(rows, b);
      && (ra.Ok? && rb.Err? ==> ApplySending(ra.value, b).Err?)
      && (ra.Err? && rb.Ok? ==> ApplySending(rb.value, a).Err?)
      && (ra.Ok? && rb.Ok? ==> Same(ApplySending(ra.value, b), ApplySending(rb.value, a)))
  {
    hide ParseUuid;
    var ra, rb := ApplySending(rows, a), ApplySending(rows, b);
    if ra.Ok? && rb.Ok? { assert ApplySending(ra.value, b).value == ApplySending(rb.value, a).value; }
  }

  lemma CommuteInternals(rows: map<Uuid, IntRow>, a: InternalWithdrawal, b: InternalWithdrawal)
    requires MemosApart(a.memo, b.memo)
    ensures var ra, rb := UpdateInternal(rows, a), UpdateInternal(rows, b);
      && (ra.Ok? && rb.Err? ==> UpdateInternal(ra.value, b).Err?)
      && (ra.Err? && rb.Ok? ==> UpdateInternal(rb.value, a).Err?)
      && (ra.Ok? && rb.Ok? ==> Same(UpdateInternal(ra.value, b), UpdateInternal(rb.value, a)))
  {
    hide ParseUuid;
    var ra, rb := UpdateInternal(rows, a), UpdateInternal(rows, b);
    if ra.Ok? && rb.Ok? { assert UpdateInternal(ra.value, b).value == UpdateInternal(rb.value, a).value; }
  }

  lemma CommuteExterns(x: External, a: ExternalWithdrawal, b: ExternalWithdrawal)
    requires ExtKey(a.msg, a.to) != ExtKey(b.msg, b.to)
    ensures var ra, rb := UpdateExternal(x, a), UpdateExternal(x, b);
      && (ra.Ok? && rb.Err? ==> UpdateExternal(ra.value, b).Err?)
      && (ra.Err? && rb.Ok? ==> UpdateExternal(rb.value, a).Err?)
      && (ra.Ok? && rb.Ok? ==> Same(UpdateExternal(ra.value, b), UpdateExternal(rb.value, a)))
  {
    hide SetProcessing, SetProcessed;
    var ra, rb := UpdateExternal(x, a), UpdateExternal(x, b);
    if ra.Ok? && rb.Ok? {
      var ab, ba := UpdateExternal(ra.value, b).value, UpdateExternal(rb.value, a).value;
      assert ab.rows == ba.rows;
      CommuteFlags(x.requests, {x.rows[ExtKey(a.msg, a.to)].queryId}, {x.rows[ExtKey(b.msg, b.to)].queryId});
    }
  }

  lemma CommuteFlags(requests: map<int, Request>, p: set<int>, q: set<int>)
    ensures SetProcessing(SetProcessing(requests, p, false), q, false)
         == SetProcessing(SetProcessing(requests, q, false), p, false)
    ensures SetProcessed(SetProcessed(requests, p), q) == SetProcessed(SetProcessed(requests, q), p)
    ensures SetProcessing(SetProcessed(requests, p), q, false) == SetProcessed(SetProcessing(requests, q, false), p)
    ensures SetProcessing(SetProcessed(requests, q), p, false) == SetProcessed(SetProcessing(requests, p, false), q)
  {}

  ghost predicate AllIndependent(xs: seq<Change>, ys: seq<Change>) {
    forall c, d :: c in xs && d in ys ==> Independent(c, d)
  }

  lemma {:induction false} SwapOne(t: Tables, c: Change, ys: seq<Change>)
    requires AllIndependent([c], ys)
    ensures Same(ApplyChanges(t, [c] + ys), ApplyChanges(t, ys + [c]))
    decreases |ys|
  {
    hide ApplyChange, ApplyChanges, Independent;
    if ys == [] {
      assert [c] + ys == [c] && ys + [c] == [c];
    } else {
      var n := |ys| - 1;
      var init, d := ys[..n], ys[n];
      assert ys == init + [d] && [c] + ys == ([c] + init) + [d];
      SwapOne(t, c, init);
      ApplyLast(t, [c] + init, d);
      ApplyLast(t, init, c);
      ApplyLast(t, init, d);
      ApplyLast(t, ys, c);
      if ApplyChanges(t, init).Ok? { Commute(ApplyChanges(t, init).value, c, d); }
    }
  }

  lemma {:induction false} SwapLists(t: Tables, xs: seq<Change>, ys: seq<Change>)
    requires AllIndependent(xs, ys)
    ensures Same(ApplyChanges(t, xs + ys), ApplyChanges(t, ys + xs))
    decreases |xs|
  {
    hide ApplyChange, ApplyChanges, Independent;
    if xs == [] {
      assert xs + ys == ys && ys + xs == ys;
    } else {
      var n := |xs| - 1;
      var c := xs[n];
      assert xs == xs[..n] + [c];
      assert xs + ys == xs[..n] + ([c] + ys) && xs[..n] + (ys + [c]) == xs[..n] + ys + [c]
        && ys + xs == ys + xs[..n] + [c];
      ApplyConcat(t, xs[..n], [c] + ys);
      ApplyConcat(t, xs[..n], ys + [c]);
      if ApplyChanges(t, xs[..n]).Ok? { SwapOne(ApplyChanges(t, xs[..n]).value, c, ys); }
      SwapLists(t, xs[..n], ys);
      ApplyLast(t, xs[..n] + ys, c);
      ApplyLast(t, ys + xs[..n], c);
    }
  }

  // ---- Accounts in any order ----

  const KINDS := 6

  /** The changes of one kind, numbered in the order they are applied. */
  function Kind(e: Events, n: nat): seq<Change>
    requires n < KINDS
  {
    match n
    case 0 => ExtIncomeChanges(e.extIncomes)
    case 1 => IntIncomeChanges(e.intIncomes)
    case 2 => SendingChanges(e.sendings)
    case 3 => InternalChanges(e.intWithdrawals)
    case 4 => ExternalChanges(e.extWithdrawals)
    case _ => ConfirmationChanges(e.confirmations)
  }

  lemma KindOfAppend(e: Events, f: Events, n: nat)
    requires n < KINDS
    ensures Kind(e.Append(f), n) == Kind(e, n) + Kind(f, n)
  {}

  /** The block's events gathered account by account. */
  function Gather(accounts: seq<Events>): Events {
    if accounts == [] then NO_EVENTS else accounts[0].Append(Gather(accounts[1..]))
  }

  function KindOf(accounts: seq<Events>, n: nat): seq<Change>
    requires n < KINDS
  {
    if accounts == [] then [] else Kind(accounts[0], n) + KindOf(accounts[1..], n)
  }

  lemma {:induction false} GatherKind(accounts: seq<Events>, n: nat)
    requires n < KINDS
    ensures Kind(Gather(accounts), n) == KindOf(accounts, n)
  {
    if accounts != [] {
      GatherKind(accounts[1..], n);
      KindOfAppend(accounts[0], Gather(accounts[1..]), n);
    }
  }

  /** Each memo and each batch row belongs to one account. */
  predicate Separate(a: Events, b: Events) {
    && (forall c, d :: c in a.sendings && d in b.sendings ==> MemosApart(c.memo, d.memo))
    && (forall c, d :: c in a.intWithdrawals && d in b.intWithdrawals ==> MemosApart(c.memo, d.memo))
    && (forall c, d :: c in a.extWithdrawals && d in b.extWithdrawals ==> (c.msg, c.to) != (d.msg, d.to))
  }

  ghost predicate AllSeparate(accounts: seq<Events>) {
    forall i, j :: 0 <= i < j < |accounts| ==> Separate(accounts[i], accounts[j]) && Separate(accounts[j], accounts[i])
  }

  lemma SeparateIsIndependent(a: Events, b: Events, n: nat)
    requires n < KINDS && Separate(a, b)
    ensures AllIndependent(Kind(a, n), Kind(b, n))
  {
    forall c, d | c in Kind(a, n) && d in Kind(b, n) ensures Independent(c, d) {
      var i :| 0 <= i < |Kind(a, n)| && Kind(a, n)[i] == c;
      var j :| 0 <= j < |Kind(b, n)| && Kind(b, n)[j] == d;
    }
  }

  lemma {:induction false} KindOfConcat(p: seq<Events>, q: seq<Events>, n: nat)
    requires n < KINDS
    ensures KindOf(p + q, n) == KindOf(p, n) + KindOf(q, n)
  {
    hide Kind;
    if p == [] { assert p + q == q; }
    else {
      KindOfConcat(p[1..], q, n);
      assert (p + q)[0] == p[0] && (p + q)[1..] == p[1..] + q;
      assert KindOf(p + q, n) == Kind(p[0], n) + (KindOf(p[1..], n) + KindOf(q, n));
    }
  }

  lemma {:induction false} IndependentOfAll(a: Events, p: seq<Events>, n: nat)
    requires n < KINDS && forall b :: b in p ==> Separate(b, a)
    ensures AllIndependent(KindOf(p, n), Kind(a, n))
  {
    if p != [] {
      SeparateIsIndependent(p[0], a, n);
      IndependentOfAll(a, p[1..], n);
    }
  }

  lemma SplitAt<T>(q: seq<T>, k: nat)
    requires k < |q|
    ensures q == q[..k] + ([q[k]] + q[k + 1..])
    ensures multiset(q) == multiset(q[..k] + q[k + 1..]) + multiset{q[k]}
  {
    var l, r := q[..k], q[k + 1..];
    assert q == l + ([q[k]] + r);
    assert multiset(q) == multiset(l) + multiset([q[k]] + r) == multiset(l) + (multiset([q[k]]) + multiset(r));
  }

  /** The head of one order, found in the other. */
  lemma FindFirst<T>(p: seq<T>, q: seq<T>) returns (k: nat)
    requires multiset(p) == multiset(q) && p != []
    ensures k < |q| && q[k] == p[0] && multiset(p[1..]) == multiset(q[..k] + q[k + 1..])
  {
    assert p[0] in multiset(q);
    k :| 0 <= k < |q| && q[k] == p[0];
    SplitAt(q, k);
    SplitAt(p, 0);
    assert p[..0] + p[1..] == p[1..];
    Cancelled(multiset(p[1..]), multiset(q[..k] + q[k + 1..]), p[0]);
  }

  lemma Cancelled<T>(x: multiset<T>, y: multiset<T>, e: T)
    requires x + multiset{e} == y + multiset{e}
    ensures x == y
  {
    assert x == (x + multiset{e}) - multiset{e};
    assert y == (y + multiset{e}) - multiset{e};
  }

  lemma TailSeparate(p: seq<Events>, l: seq<Events>, r: seq<Events>)
    requires AllSeparate(p) && p != [] && multiset(p[1..]) == multiset(l + r)
    ensures AllSeparate(p[1..])
    ensures forall b :: b in l ==> Separate(b, p[0])
  {
    hide Separate;
    var rest := p[1..];
    forall b | b in l ensures Separate(b, p[0]) {
      assert b in l + r && b in multiset(l + r) && b in multiset(rest);
      var j :| 0 <= j < |rest| && rest[j] == b;
      assert p[j + 1] == b;
    }
    forall i, j | 0 <= i < j < |rest| ensures Separate(rest[i], rest[j]) && Separate(rest[j], rest[i]) {
      assert rest[i] == p[i + 1] && rest[j] == p[j + 1];
    }
  }

  /** One kind of changes, with the accounts permuted. */
  lemma {:induction false} PermuteKind(t: Tables, p: seq<Events>, q: seq<Events>, n: nat)
    requires n < KINDS && multiset(p) == multiset(q) && AllSeparate(p)
    ensures Same(ApplyChanges(t, KindOf(p, n)), ApplyChanges(t, KindOf(q, n)))
    decreases |p|
  {
    hide ApplyChange, ApplyChanges, Kind, Separate, AllSeparate;
    if p == [] {
      assert |multiset(q)| == 0;
    } else {
      var k := FindFirst(p, q);
      var a, rest, others := p[0], p[1..], q[..k] + q[k + 1..];
      TailSeparate(p, q[..k], q[k + 1..]);
      SplitAt(q, k);
      MoveToFront(t, q[..k], a, q[k + 1..], n);
      ApplyConcat(t, Kind(a, n), KindOf(rest, n));
      ApplyConcat(t, Kind(a, n), KindOf(others, n));
      if ApplyChanges(t, Kind(a, n)).Ok? { PermuteKind(ApplyChanges(t, Kind(a, n)).value, rest, others, n); }
    }
  }

  lemma {:induction false} MoveToFront(t: Tables, l: seq<Events>, a: Events, r: seq<Events>, n: nat)
    requires n < KINDS && forall b :: b in l ==> Separate(b, a)
    ensures Same(ApplyChanges(t, KindOf(l + ([a] + r), n)), ApplyChanges(t, Kind(a, n) + KindOf(l + r, n)))
  {
    hide ApplyChange, ApplyChanges, Kind, Separate, Independent;
    var la, ka, ra := KindOf(l, n), Kind(a, n), KindOf(r, n);
    KindOfConcat(l, [a] + r, n);
    KindOfConcat([a], r, n);
    assert KindOf([a], n) == ka by { assert [a][1..] == []; assert ka + [] == ka; }
    KindOfConcat(l, r, n);
    IndependentOfAll(a, l, n);
    SwapLists(t, la, ka);
    assert la + (ka + ra) == la + ka + ra && ka + (la + ra) == ka + la + ra;
    ApplyConcat(t, la + ka, ra);
    ApplyConcat(t, ka + la, ra);
  }

  /** All kinds up to the n-th. */
  function UpTo(accounts: seq<Events>, n: nat): seq<Change>
    requires n <= KINDS
  {
    if n == 0 then [] else UpTo(accounts, n - 1) + KindOf(accounts, n - 1)
  }

  lemma {:induction false} PermuteUpTo(t: Tables, p: seq<Events>, q: seq<Events>, n: nat)
    requires n <= KINDS && multiset(p) == multiset(q) && AllSeparate(p)
    ensures Same(ApplyChanges(t, UpTo(p, n)), ApplyChanges(t, UpTo(q, n)))
  {
    hide ApplyChange, ApplyChanges, Kind, KindOf, AllSeparate;
    if n > 0 {
      PermuteUpTo(t, p, q, n - 1);
      ApplyConcat(t, UpTo(p, n - 1), KindOf(p, n - 1));
      ApplyConcat(t, UpTo(q, n - 1), KindOf(q, n - 1));
      if ApplyChanges(t, UpTo(p, n - 1)).Ok? {
        PermuteKind(ApplyChanges(t, UpTo(p, n - 1)).value, p, q, n - 1);
      }
    }
  }

  lemma {:induction false} GatheredChanges(p: seq<Events>)
    ensures ChangesOf(Gather(p)) == UpTo(p, KINDS)
  {
    var e := Gather(p);
    forall n | 0 <= n < KINDS ensures Kind(e, n) == KindOf(p, n) { GatherKind(p, n); }
    assert ChangesOf(e) == Kind(e, 0) + Kind(e, 1) + Kind(e, 2) + Kind(e, 3) + Kind(e, 4) + Kind(e, 5);
    assert UpTo(p, 1) == KindOf(p, 0);
    assert UpTo(p, 6) == UpTo(p, 1) + KindOf(p, 1) + KindOf(p, 2) + KindOf(p, 3) + KindOf(p, 4) + KindOf(p, 5) by {
      assert UpTo(p, 3) == UpTo(p, 1) + KindOf(p, 1) + KindOf(p, 2);
      assert UpTo(p, 5) == UpTo(p, 3) + KindOf(p, 3) + KindOf(p, 4);
    }
  }

  /** Map-order independence: every iteration order of the accounts gives the same tables or a rejection. */
  lemma {:induction false} OrderIndependence(t: Tables, p: seq<Events>, q: seq<Events>, key: BlockKey, gen: Time)
    requires multiset(p) == multiset(q) && AllSeparate(p)
    ensures Same(ApplyBlock(t, BlockEvents(Gather(p), key, gen)), ApplyBlock(t, BlockEvents(Gather(q), key, gen)))
  {
    GatheredChanges(p);
    GatheredChanges(q);
    PermuteUpTo(t, p, q, KINDS);
  }

  /** Kind by kind matters: applied account by account, the same two accounts succeed in one order and are rejected in
    * the other. */
  lemma AccountByAccountDependsOnOrder()
    ensures exists t: Tables, a: Events, b: Events ::
      && Separate(a, b) && Separate(b, a)
      && ApplyChanges(t, ChangesOf(a) + ChangesOf(b)).Ok?
      && ApplyChanges(t, ChangesOf(b) + ChangesOf(a)) == Err(EventOrder)
  {
    hide ParseUuid, PrintUuid;
    var memo := Uuid(seq(32, i => 0));
    var d := Addr(seq(256, i => false));
    var row := IntRow(d, 1, 0, None, None, 0, false);
    var t := Tables(External(map[], map[]), map[memo := row], multiset{}, map[], map[]);
    var sc, iw := SendingConfirmation(2, d, PrintUuid(memo)), InternalWithdrawal(3, 0, d, 5, PrintUuid(memo), false);
    var a, b := NO_EVENTS.(sendings := [sc]), NO_EVENTS.(intWithdrawals := [iw]);
    UuidRoundTrip(memo);
    assert ChangesOf(a) == [Sending(sc)] && ChangesOf(b) == [Internal(iw)];
    ApplyConcat(t, ChangesOf(a), ChangesOf(b));
    ApplyConcat(t, ChangesOf(b), ChangesOf(a));
    ApplyOne(t, Sending(sc));
    ApplyOne(t, Internal(iw));
    ApplyOne(ApplyChange(t, Sending(sc)).value, Internal(iw));
  }

  // ---- At most once ----

  lemma {:induction false} ChangesKeepBlocks(t: Tables, cs: seq<Change>)
    ensures ApplyChanges(t, cs).Ok? ==> ApplyChanges(t, cs).value.blocks == t.blocks
    decreases |cs|
  {
    if cs != [] { ChangesKeepBlocks(t, cs[..|cs| - 1]); }
  }

  /** A history of attempts: a block is applied or rejected, or something else happens that deletes no block row. */
  ghost predicate History(states: seq<Tables>, attempts: seq<Option<BlockEvents>>) {
    && |states| == |attempts| + 1
    && forall i :: 0 <= i < |attempts| ==>
         match attempts[i]
         case Some(b) => states[i + 1] == Attempt(states[i], b)
         case None => states[i].blocks.Keys <= states[i + 1].blocks.Keys
  }

  function Attempt(t: Tables, b: BlockEvents): Tables {
    match ApplyBlock(t, b) case Ok(u) => u case Err(_) => t
  }

  lemma {:induction false} BlocksGrow(states: seq<Tables>, attempts: seq<Option<BlockEvents>>, i: nat, j: nat)
    requires History(states, attempts) && i <= j <= |attempts|
    ensures states[i].blocks.Keys <= states[j].blocks.Keys
    decreases j - i
  {
    if i < j {
      BlocksGrow(states, attempts, i, j - 1);
      if attempts[j - 1].Some? { ChangesKeepBlocks(states[j - 1], ChangesOf(attempts[j - 1].value.events)); }
    }
  }

  /** However often a block is emitted again, its events change the tables at most once. */
  lemma AppliedAtMostOnce(states: seq<Tables>, attempts: seq<Option<BlockEvents>>, i: nat, j: nat)
    requires History(states, attempts) && i < j < |attempts|
    requires attempts[i].Some? && attempts[j].Some? && attempts[i].value.key == attempts[j].value.key
    requires ApplyBlock(states[i], attempts[i].value).Ok?
    ensures ApplyBlock(states[j], attempts[j].value).Err? && states[j + 1] == states[j]
  {
    BlocksGrow(states, attempts, i + 1, j);
    ChangesKeepBlocks(states[j], ChangesOf(attempts[j].value.events));
  }
}
