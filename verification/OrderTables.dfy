/**
 The transactions of the order module, each as one atomic change of the tables,
 and the invariant every one of them keeps.

 Stores.dfy proves the statement-by-statement DAO methods equal to these
 functions; RowLocks.dfy proves that interleaved statements amount to them.
 */
module OrderTables {
  import opened Model
  import Sets

  // ---- Tables with the same orders ------------------------------------------

  predicate SameKeys(a: Db, b: Db)
  {
    a.orders.Keys == b.orders.Keys && forall o :: o in a.orders ==> a.orders[o].Key() == b.orders[o].Key()
  }

  lemma SameKeysSameOrders(a: Db, b: Db, p: Pair)
    requires SameKeys(a, b)
    ensures HasOrder(a, p) <==> HasOrder(b, p)
  {
    if o :| o in a.orders && a.orders[o].Key() == p {
      assert b.orders[o].Key() == p;
    }
    if o :| o in b.orders && b.orders[o].Key() == p {
      assert a.orders[o].Key() == p;
    }
  }

  // ---- What one transaction does -------------------------------------------

  /** The status a row reaches when its member count has become `current`. */
  function Promote(s: GoodStatus, current: int, min: int, max: int): GoodStatus
  {
    if s == Recruiting && current >= min then
      if current >= max then Full else Succeeded
    else if s == Succeeded && current >= max then Full
    else s
  }

  /** The group-buy row after one more order. */
  function Join(row: GroupBuy): GroupBuy
  {
    if Countable(row.status) then
      row.(current := row.current + 1,
           status := Promote(row.status, row.current + 1, row.min, row.max))
    else row
  }

  /** One more order moves the good out of recruiting. */
  predicate Completes(db: Db, g: int)
  {
    g in db.goods && db.goods[g].status == Recruiting && Join(db.goods[g]).status != Recruiting
  }

  /** The group-buy row after one order gave its slot back. */
  function Leave(row: GroupBuy): GroupBuy
  {
    if row.current > 0 then row.(current := row.current - 1) else row
  }

  function OnGood(goods: map<int, GroupBuy>, g: int, f: GroupBuy -> GroupBuy): map<int, GroupBuy>
  {
    if g in goods then goods[g := f(goods[g])] else goods
  }

  /** Some unique index refuses the order row or the sign-up row (MySQL error 1062). */
  predicate Conflicts(db: Db, o: int, p: Pair)
  {
    o in db.orders || HasOrder(db, p) || p in db.signups
  }

  function CreateOrder(db: Db, o: int, p: Pair, now: int): Db
  {
    if Conflicts(db, o, p) then db
    else Db(OnGood(db.goods, p.good, Join),
            db.orders[o := Order(p.user, p.good, PendingPay, now, 0)],
            db.signups + {p})
  }

  predicate CanLeavePending(db: Db, o: int)
  {
    o in db.orders && db.orders[o].status == PendingPay
  }

  predicate CanPay(db: Db, o: int, u: int)
  {
    CanLeavePending(db, o) && db.orders[o].user == u
  }

  function PayOrder(db: Db, o: int, u: int): Db
  {
    if CanPay(db, o, u) then
      db.(orders := db.orders[o := db.orders[o].(status := Paid)])
    else db
  }

  /** Cancel and timeout close differ only in the status they write. */
  function EndOrder(db: Db, o: int, ended: OrderStatus, now: int): Db
  {
    if CanLeavePending(db, o) then
      var row := db.orders[o];
      Db(OnGood(db.goods, row.good, Leave),
         db.orders[o := row.(status := ended, closedAt := if ended == Closed then now else row.closedAt)],
         db.signups - {row.Key()})
    else db
  }

  predicate CanCancel(db: Db, o: int, u: int)
  {
    CanLeavePending(db, o) && db.orders[o].user == u
  }

  function CancelOrder(db: Db, o: int, u: int): Db
  {
    if CanCancel(db, o, u) then EndOrder(db, o, Cancelled, 0) else db
  }

  predicate CanFail(db: Db, g: int, now: int)
  {
    g in db.goods && db.goods[g].status == Recruiting && db.goods[g].deadline < now &&
    db.goods[g].current < db.goods[g].min
  }

  predicate CanSucceedLate(db: Db, g: int, now: int)
  {
    g in db.goods && db.goods[g].status == Recruiting && db.goods[g].deadline < now &&
    db.goods[g].current >= db.goods[g].min
  }

  /** Deadline judgement of one row: the two branches exclude each other. */
  function JudgeFailed(db: Db, g: int, now: int): Db
  {
    if CanFail(db, g, now) then db.(goods := db.goods[g := db.goods[g].(status := Failed)]) else db
  }

  function JudgeSucceeded(db: Db, g: int, now: int): Db
  {
    if CanSucceedLate(db, g, now) then db.(goods := db.goods[g := db.goods[g].(status := Succeeded)]) else db
  }

  // ---- The table invariant ---------------------------------------------------

  ghost predicate OneOrderPerPair(db: Db)
  {
    forall a, b :: a in db.orders && b in db.orders && db.orders[a].Key() == db.orders[b].Key() ==> a == b
  }

  ghost predicate SignupsAreLive(db: Db)
  {
    forall p :: p in db.signups <==> HasLiveOrder(db, p)
  }

  /** Counter agreement and status discipline of one group-buy row. */
  ghost predicate RowInv(db: Db, g: int)
    requires g in db.goods
  {
    var row := db.goods[g];
    && 1 <= row.min <= row.max && 0 <= row.current
    && (if Countable(row.status) then row.current == |LiveOrders(db, g)|
        else row.status == Failed && row.current <= |LiveOrders(db, g)| && row.current < row.min)
    && (row.status == Recruiting ==> row.current < row.min)
  }

  ghost predicate DbInv(db: Db)
  {
    && OneOrderPerPair(db)
    && SignupsAreLive(db)
    && forall g :: g in db.goods ==> RowInv(db, g)
  }

  // ---- 1062 ------------------------------------------------------------------

  /** A refused create always means that the user's order for this good exists:
      the sign-up index never refuses on its own. */
  lemma DuplicateMeansOrdered(db: Db, o: int, p: Pair)
    requires DbInv(db) && o !in db.orders
    ensures Conflicts(db, o, p) <==> HasOrder(db, p)
  {
    if p in db.signups {
      assert HasLiveOrder(db, p);
    }
  }

  lemma CreateLeavesOrder(db: Db, o: int, p: Pair, now: int)
    requires DbInv(db) && o !in db.orders
    ensures HasOrder(CreateOrder(db, o, p, now), p)
  {
    DuplicateMeansOrdered(db, o, p);
    if !HasOrder(db, p) {
      assert CreateOrder(db, o, p, now).orders[o].Key() == p;
    }
  }

  /** A create gives an order to p and to nobody else. */
  lemma CreateOrdersOnlyItsPair(db: Db, o: int, p: Pair, now: int, q: Pair)
    requires !Conflicts(db, o, p)
    ensures HasOrder(CreateOrder(db, o, p, now), q) <==> HasOrder(db, q) || q == p
  {
    var db' := CreateOrder(db, o, p, now);
    assert db'.orders[o].Key() == p;
    if HasOrder(db, q) {
      var x :| x in db.orders && db.orders[x].Key() == q;
      assert db'.orders[x].Key() == q;
    }
  }

  // ---- Preservation ------------------------------------------------------------

  lemma CreateKeepsOthers(db: Db, o: int, p: Pair, now: int, g: int)
    requires !Conflicts(db, o, p)
    ensures var db' := CreateOrder(db, o, p, now);
            LiveOrders(db', g) == LiveOrders(db, g) + (if g == p.good then {o} else {})
  {
  }

  lemma CreateKeepsInv(db: Db, o: int, p: Pair, now: int)
    requires DbInv(db)
    ensures DbInv(CreateOrder(db, o, p, now))
  {
    var db' := CreateOrder(db, o, p, now);
    if !Conflicts(db, o, p) {
      forall q ensures q in db'.signups <==> HasLiveOrder(db', q) {
        if q == p {
          assert db'.orders[o].Key() == p;
        } else if HasLiveOrder(db, q) {
          var x :| x in db.orders && db.orders[x].Key() == q && db.orders[x].IsLive();
          assert db'.orders[x] == db.orders[x];
        }
      }
      forall g | g in db'.goods ensures RowInv(db', g) {
        assert RowInv(db, g);
        CreateKeepsOthers(db, o, p, now, g);
        assert o !in LiveOrders(db, g);
      }
    }
  }

  lemma PayKeepsInv(db: Db, o: int, u: int)
    requires DbInv(db)
    ensures DbInv(PayOrder(db, o, u))
    ensures forall g :: LiveOrders(PayOrder(db, o, u), g) == LiveOrders(db, g)
  {
    var db' := PayOrder(db, o, u);
    if CanPay(db, o, u) {
      forall g ensures LiveOrders(db', g) == LiveOrders(db, g) {
      }
      forall q ensures q in db'.signups <==> HasLiveOrder(db', q) {
        SameLiveKey(db, db', q);
        SameLiveKey(db', db, q);
      }
      forall g | g in db'.goods ensures RowInv(db', g) {
        assert RowInv(db, g);
      }
    }
  }

  lemma SameLiveKey(a: Db, b: Db, q: Pair)
    requires a.orders.Keys == b.orders.Keys
    requires forall x :: x in a.orders ==> a.orders[x].Key() == b.orders[x].Key()
    requires forall x :: x in a.orders ==> a.orders[x].IsLive() == b.orders[x].IsLive()
    ensures HasLiveOrder(a, q) ==> HasLiveOrder(b, q)
  {
    if HasLiveOrder(a, q) {
      var x :| x in a.orders && a.orders[x].Key() == q && a.orders[x].IsLive();
      assert x in b.orders && b.orders[x].Key() == q && b.orders[x].IsLive();
    }
  }

  lemma EndKeepsOthers(db: Db, o: int, ended: OrderStatus, now: int, g: int)
    requires CanLeavePending(db, o) && (ended == Cancelled || ended == Closed)
    ensures var db' := EndOrder(db, o, ended, now);
            LiveOrders(db', g) == LiveOrders(db, g) - {o}
    ensures o in LiveOrders(db, g) <==> g == db.orders[o].good
  {
  }

  lemma EndKeepsInv(db: Db, o: int, ended: OrderStatus, now: int)
    requires DbInv(db) && (ended == Cancelled || ended == Closed)
    ensures DbInv(EndOrder(db, o, ended, now))
  {
    var db' := EndOrder(db, o, ended, now);
    if CanLeavePending(db, o) {
      var key := db.orders[o].Key();
      forall q ensures q in db'.signups <==> HasLiveOrder(db', q) {
        if HasLiveOrder(db', q) {
          var x :| x in db'.orders && db'.orders[x].Key() == q && db'.orders[x].IsLive();
          assert x != o && db.orders[x] == db'.orders[x];
          assert HasLiveOrder(db, q);
        }
        if q in db'.signups {
          assert HasLiveOrder(db, q);
          var x :| x in db.orders && db.orders[x].Key() == q && db.orders[x].IsLive();
          assert x != o && db.orders[x] == db'.orders[x];
        }
      }
      forall g | g in db'.goods ensures RowInv(db', g) {
        assert RowInv(db, g);
        EndKeepsOthers(db, o, ended, now, g);
      }
    }
  }

  /** The defensive "succeeded" branch of the judge never finds a row to flip. */
  lemma JudgeKeepsInv(db: Db, g: int, now: int)
    requires DbInv(db)
    ensures DbInv(JudgeFailed(db, g, now))
    ensures !CanSucceedLate(db, g, now) && JudgeSucceeded(db, g, now) == db
  {
    var db' := JudgeFailed(db, g, now);
    assert g in db.goods ==> RowInv(db, g);
    forall q ensures HasLiveOrder(db', q) <==> HasLiveOrder(db, q) {
      SameLiveKey(db, db', q);
      SameLiveKey(db', db, q);
    }
    forall h | h in db'.goods ensures RowInv(db', h) {
      assert RowInv(db, h);
      assert LiveOrders(db', h) == LiveOrders(db, h);
    }
  }

  lemma CancelKeepsInv(db: Db, o: int, u: int)
    requires DbInv(db)
    ensures DbInv(CancelOrder(db, o, u))
  {
    if CanCancel(db, o, u) {
      EndKeepsInv(db, o, Cancelled, 0);
    }
  }

  // ---- Growth: rows are never deleted, and an end state is final ---------------------

  predicate OrderFollows(a: Order, b: Order)
  {
    && a.Key() == b.Key() && a.createdAt == b.createdAt
    && (a.status != PendingPay ==> a == b)
  }

  ghost predicate OrdersGrow(a: Db, b: Db)
  {
    forall o :: o in a.orders ==> o in b.orders && OrderFollows(a.orders[o], b.orders[o])
  }

  lemma CreateGrows(db: Db, o: int, p: Pair, now: int)
    ensures OrdersGrow(db, CreateOrder(db, o, p, now))
  {
  }

  lemma PayGrows(db: Db, o: int, u: int)
    ensures OrdersGrow(db, PayOrder(db, o, u))
  {
  }

  lemma EndGrows(db: Db, o: int, ended: OrderStatus, now: int)
    ensures OrdersGrow(db, EndOrder(db, o, ended, now))
  {
  }

  lemma CancelGrows(db: Db, o: int, u: int)
    ensures OrdersGrow(db, CancelOrder(db, o, u))
  {
    EndGrows(db, o, Cancelled, 0);
  }

  // ---- Members waiting for an order -------------------------------------------------

  /** Members of a good whose order has not been created yet. */
  ghost function Waiting(members: set<Pair>, db: Db, g: int): set<Pair>
  {
    set p | p in members && p.good == g && !HasOrder(db, p)
  }

  lemma CreateEndsWaiting(members: set<Pair>, db: Db, o: int, p: Pair, now: int, g: int)
    requires p in members && !Conflicts(db, o, p)
    ensures Waiting(members, CreateOrder(db, o, p, now), g) == Waiting(members, db, g) - {p}
    ensures p in Waiting(members, db, g) <==> g == p.good
  {
    forall q ensures HasOrder(CreateOrder(db, o, p, now), q) <==> HasOrder(db, q) || q == p {
      CreateOrdersOnlyItsPair(db, o, p, now, q);
    }
  }

  // ---- Counting sign-ups ---------------------------------------------------------

  function SignupsOf(db: Db, g: int): set<Pair>
  {
    set p | p in db.signups && p.good == g
  }

  lemma {:induction false} ImageSize(db: Db, os: set<int>)
    requires OneOrderPerPair(db) && os <= db.orders.Keys
    ensures |set o | o in os :: db.orders[o].Key()| == |os|
    decreases |os|
  {
    if os != {} {
      var x := Sets.Some(os);
      var keys := set o | o in os :: db.orders[o].Key();
      var rest := os - {x};
      ImageSize(db, rest);
      var restKeys := set o | o in rest :: db.orders[o].Key();
      assert db.orders[x].Key() !in restKeys;
      assert keys == restKeys + {db.orders[x].Key()};
    }
  }

  /** current_members, live orders and sign-up rows agree while a good is not failed;
      afterwards the counter lags, stays below the minimum, and never recovers. */
  lemma CounterAgreement(db: Db, g: int)
    requires DbInv(db) && g in db.goods
    ensures |SignupsOf(db, g)| == |LiveOrders(db, g)|
    ensures Countable(db.goods[g].status) ==> db.goods[g].current == |LiveOrders(db, g)|
    ensures !Countable(db.goods[g].status) ==>
              db.goods[g].current <= |LiveOrders(db, g)| && db.goods[g].current < db.goods[g].min
  {
    assert RowInv(db, g);
    ImageSize(db, LiveOrders(db, g));
    var keys := set o | o in LiveOrders(db, g) :: db.orders[o].Key();
    forall p ensures p in keys <==> p in SignupsOf(db, g) {
      if p in SignupsOf(db, g) {
        assert HasLiveOrder(db, p);
        var x :| x in db.orders && db.orders[x].Key() == p && db.orders[x].IsLive();
        assert x in LiveOrders(db, g);
      }
    }
    assert keys == SignupsOf(db, g);
  }

  /** The guard `current_members > 0` of cancel and close never skips the decrement
      on a good that still counts. */
  lemma DecrementNeverSkipped(db: Db, o: int)
    requires DbInv(db) && CanLeavePending(db, o) && db.orders[o].good in db.goods
    requires Countable(db.goods[db.orders[o].good].status)
    ensures db.goods[db.orders[o].good].current > 0
  {
    var g := db.orders[o].good;
    assert RowInv(db, g);
    assert o in LiveOrders(db, g);
  }
}
