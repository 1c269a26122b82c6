/** The batch builder asks the task query for internal withdrawals; what it relies on follows from the query. */
module BatchQueries {
  import opened Base
  import opened Batch
  import opened TaskQueries

  /** The address book and the derived proxies agree with the wallets of the tables; deposits have proxies of their
    * own. */
  ghost predicate Agrees(w: World, ws: Wallets) {
    && (forall d :: IsDeposit(ws, d) ==> DepositKnown(w, ws, d))
    && forall d, e :: IsDeposit(ws, d) && IsDeposit(ws, e) && d != e ==>
         w.proxy(ws.jetton[d].subwallet) != w.proxy(ws.jetton[e].subwallet)
  }

  predicate IsDeposit(ws: Wallets, d: Address) { d in ws.jetton && ws.jetton[d].kind == JettonDeposit }

  predicate DepositKnown(w: World, ws: Wallets, d: Address)
    requires d in ws.jetton
  {
    var s := ws.jetton[d].subwallet;
    && d in w.book && w.book[d] == JettonDeposit && ws.jetton[d].currency in w.cutoff
    && w.proxy(s) in w.book && w.book[w.proxy(s)] == JettonOwner
    && (s in ws.ton ==> ws.ton[s].address == w.proxy(s))
  }

  function AddressSet(used: seq<Address>): set<Address> { set a | a in used }

  /** For every list of addresses to exclude, some of the tasks the query then offers, in any order. */
  ghost predicate Answers(db: Db, query: seq<Address> -> seq<InternalTask>) {
    forall used :: OffersOf(db, used, query(used))
  }

  ghost predicate OffersOf(db: Db, used: seq<Address>, tasks: seq<InternalTask>) {
    && (forall t :: t in tasks ==> t in JettonQuery(db, AddressSet(used)))
    && forall i, j :: 0 <= i < j < |tasks| ==> tasks[i] != tasks[j]
  }

  /** Whatever the state of the rows: an offered task is of a deposit in the tables, and if addresses are excluded its
    * owner is known and none of them; a deposit is offered once. */
  lemma OfferedIs(db: Db, excluded: set<Address>, t: InternalTask, u: InternalTask)
    requires t in JettonQuery(db, excluded) && u in JettonQuery(db, excluded)
    ensures t.deposit in db.wallets.jetton
      && db.wallets.jetton[t.deposit] == JettonWallet(t.subwallet, t.currency, JettonDeposit)
    ensures excluded != {} ==> t.subwallet in db.wallets.ton && db.wallets.ton[t.subwallet].address !in excluded
    ensures t.deposit == u.deposit ==> t == u
  {
    hide JettonLts;
  }

  /** So the builder may use it: its tasks have pairwise distinct proxies, and none of an address a service message
    * has used up. */
  lemma QueryFitsBuilder(db: Db, w: World, query: seq<Address> -> seq<InternalTask>, used: seq<Address>)
    requires Agrees(w, db.wallets) && Answers(db, query)
    ensures InternalTasksOk(w, query(used))
    ensures forall t :: t in query(used) ==> w.proxy(t.subwallet) !in used
  {
    hide JettonQuery;
    var tasks, excluded := query(used), AddressSet(used);
    assert OffersOf(db, used, tasks);
    forall k | 0 <= k < |tasks| ensures InternalTaskOk(w, tasks[k]) { OfferIsOk(db, w, excluded, tasks[k]); }
    forall i, j | 0 <= i < j < |tasks| ensures w.proxy(tasks[i].subwallet) != w.proxy(tasks[j].subwallet) {
      OfferedIs(db, excluded, tasks[i], tasks[j]);
      OfferedIs(db, excluded, tasks[j], tasks[i]);
    }
    forall t | t in tasks ensures w.proxy(t.subwallet) !in used {
      OfferIsOk(db, w, excluded, t);
      assert w.proxy(t.subwallet) in used ==> w.proxy(t.subwallet) in excluded;
    }
  }

  lemma OfferIsOk(db: Db, w: World, excluded: set<Address>, t: InternalTask)
    requires Agrees(w, db.wallets) && t in JettonQuery(db, excluded)
    ensures InternalTaskOk(w, t) && w.proxy(t.subwallet) !in excluded
  {
    hide JettonQuery;
    OfferedIs(db, excluded, t, t);
    assert IsDeposit(db.wallets, t.deposit);
    assert DepositKnown(w, db.wallets, t.deposit);
  }

  /** All of it, as the builder requires it. */
  lemma BuilderMayAsk(db: Db, w: World, query: seq<Address> -> seq<InternalTask>)
    requires Agrees(w, db.wallets) && Answers(db, query)
    ensures forall used :: InternalTasksOk(w, query(used))
    ensures forall used, t :: t in query(used) ==> w.proxy(t.subwallet) !in used
  {
    hide Agrees, Answers, InternalTasksOk;
    forall used ensures InternalTasksOk(w, query(used)) { QueryFitsBuilder(db, w, query, used); }
    forall used, t | t in query(used) ensures w.proxy(t.subwallet) !in used { QueryFitsBuilder(db, w, query, used); }
  }
}
