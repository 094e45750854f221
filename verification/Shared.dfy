/**
 What a handler may rely on about the shared stores between two of its own
 operations, and must itself guarantee with each of them.
 */
module Shared {
  import opened Model
  import opened RedisKeys
  import Sets
  import T = OrderTables

  /** The stores, with three ghosts beside them: what each good was published with, the
      dead orders whose slot some handler has yet to give back, and those whose slot is back. */
  datatype View = View(
    db: Db, users: set<int>, redis: Redis, queue: multiset<Pair>, nextId: int, now: int,
    terms: map<int, int>, claimed: set<int>, returned: set<int>)

  predicate TargetMissing(v: View, p: Pair)
  {
    TargetGone(v.db, v.users, p)
  }

  ghost predicate Settled(v: View, p: Pair)
  {
    IsSettled(v.db, v.users, p)
  }

  /** Orders whose slot is not back in the stock. */
  ghost function Holding(v: View, g: int): set<int>
  {
    set o | o in v.db.orders && v.db.orders[o].good == g && o !in v.returned
  }

  ghost predicate Account(v: View, g: int)
    requires g in v.terms
  {
    SlotsAddUp(Stock(v.redis, g), T.Waiting(v.redis.members, v.db, g), Holding(v, g), v.terms[g])
  }

  ghost predicate Accounts(v: View)
  {
    && (forall o :: o in v.claimed || o in v.returned ==> IsDead(v.db, o))
    && v.claimed !! v.returned
    && forall g :: g in v.terms ==> Account(v, g)
  }

  ghost predicate Remembered(v: View)
  {
    && (forall p :: p in v.queue || p in v.redis.pending ==> p in v.redis.members)
    && (forall p :: p in v.redis.members ==> p in v.redis.pending || Settled(v, p))
  }

  /** Names a good to be looked at: handlers carry what is said of goods along unopened. */
  ghost predicate Watched(g: int) { true }

  /** Every row was published. */
  ghost predicate GoodsAreKnown(v: View)
  {
    forall g {:trigger Watched(g)} :: Watched(g) && g in v.db.goods ==> g in v.terms
  }

  /** Published terms never change, a row that is gone stays gone, and a good that is over
      stays over. */
  ghost predicate GoodsGoOn(v: View, v': View)
  {
    forall g {:trigger Watched(g)} :: Watched(g) && g in v.terms ==>
      && g in v'.terms && v'.terms[g] == v.terms[g] && (IsOver(v.db, g) ==> IsOver(v'.db, g))
      && (g in v'.db.goods ==> g in v.db.goods && v'.db.goods[g].publisher == v.db.goods[g].publisher)
  }

  /** Names a pair to be looked at, in the same way. */
  ghost predicate Noted(p: Pair) { true }

  /** No mark bears a later date than today's, so that it expires in time. */
  ghost predicate MarksAreDated(v: View)
  {
    forall p {:trigger Noted(p)} :: Noted(p) && p in v.redis.pending ==> v.redis.pending[p] <= Unix(v.now)
  }

  /** May have a slot: somebody other than the publisher of a published good. */
  predicate IsOutsider(v: View, p: Pair)
  {
    p.good in v.terms && (p.good in v.db.goods ==> v.db.goods[p.good].publisher != p.user)
  }

  ghost predicate MembersAreOutsiders(v: View)
  {
    forall p {:trigger Noted(p)} :: Noted(p) && p in v.redis.members ==> IsOutsider(v, p)
  }

  /** Holds at every moment. */
  ghost predicate Sound(v: View)
  {
    && T.DbInv(v.db)
    && (forall o :: o in v.db.orders ==> o < v.nextId && v.db.orders[o].Key() in v.redis.members)
    && GoodsAreKnown(v) && MarksAreDated(v) && MembersAreOutsiders(v)
    && Remembered(v)
    && Accounts(v)
  }

  /** Holds between any two moments. */
  ghost predicate Onward(v: View, v': View)
  {
    && T.OrdersGrow(v.db, v'.db)
    && v.redis.members <= v'.redis.members
    && v.nextId <= v'.nextId && v.now <= v'.now
    && (forall p :: p in v.redis.members && TargetMissing(v, p) ==> TargetMissing(v', p))
    && v.returned <= v'.returned
    && GoodsGoOn(v, v')
  }

  lemma OnwardTwice(a: View, b: View, c: View)
    requires Onward(a, b) && Onward(b, c)
    ensures Onward(a, c)
  {
  }

  lemma StaysOutsider(v: View, v': View, p: Pair)
    requires Onward(v, v') && IsOutsider(v, p)
    ensures IsOutsider(v', p)
  {
    assert Watched(p.good);
  }

  /** Whoever read a row and is not its publisher is an outsider from then on. */
  lemma ReaderIsOutsider(v: View, p: Pair)
    requires Sound(v) && p.good in v.db.goods && v.db.goods[p.good].publisher != p.user
    ensures IsOutsider(v, p)
  {
    assert Watched(p.good);
  }

  /** A mark left alone for 31 seconds counts as expired. */
  lemma MarksExpire(v: View, p: Pair, later: int)
    requires Sound(v) && p in v.redis.pending && v.now + 31 * SECOND <= later
    ensures MarkExpired(v.redis, p, later)
  {
    assert Noted(p);
    UnixGrows(v.now + SECOND, later - PENDING_TIMEOUT);
  }

  lemma OrderStays(v: View, v': View, p: Pair)
    requires Onward(v, v') && HasOrder(v.db, p)
    ensures HasOrder(v'.db, p)
  {
    var o :| o in v.db.orders && v.db.orders[o].Key() == p;
    assert v'.db.orders[o].Key() == p;
  }

  lemma SettledStays(v: View, v': View, p: Pair)
    requires Onward(v, v') && p in v.redis.members && Settled(v, p)
    ensures Settled(v', p)
  {
    if HasOrder(v.db, p) {
      OrderStays(v, v', p);
    }
  }

  lemma WaitingShrinks(v: View, v': View, g: int)
    requires Onward(v, v') && v'.redis.members == v.redis.members
    ensures T.Waiting(v'.redis.members, v'.db, g) <= T.Waiting(v.redis.members, v.db, g)
  {
    forall p | p in T.Waiting(v'.redis.members, v'.db, g) ensures !HasOrder(v.db, p) {
      if HasOrder(v.db, p) {
        OrderStays(v, v', p);
      }
    }
  }

  lemma WithinSlots(v: View, g: int)
    requires Sound(v) && g in v.terms
    ensures |LiveOrders(v.db, g)| <= v.terms[g] && 0 <= Stock(v.redis, g) <= v.terms[g]
  {
    assert Account(v, g);
    var live, holding := LiveOrders(v.db, g), Holding(v, g);
    forall o | o in live ensures o in holding {
      assert !IsDead(v.db, o);
    }
    Sets.SubsetSize(live, holding);
  }

  /** However handlers interleave and fail, live orders and stock fit the slots a good was
      published with, and slots that are back stay back. */
  lemma NeverOversold(v: View, v': View, g: int)
    requires Onward(v, v') && Sound(v') && g in v.terms
    ensures |LiveOrders(v'.db, g)| <= v.terms[g] && 0 <= Stock(v'.redis, g) <= v.terms[g]
    ensures forall o :: o in v.returned ==> o in v'.returned && o !in v'.claimed
  {
    assert Watched(g);
    WithinSlots(v', g);
  }

  // ---- Operations on Redis and the queue ---------------------------------------------------------

  /** Orders, members and the slots they hold are as before. */
  predicate Alike(v: View, v': View)
  {
    && T.SameKeys(v.db, v'.db)
    && v'.db.goods.Keys == v.db.goods.Keys && v'.users == v.users
    && v'.redis.members == v.redis.members && v'.terms == v.terms
  }

  lemma SameOrders(v: View, v': View, p: Pair)
    requires Alike(v, v')
    ensures HasOrder(v.db, p) <==> HasOrder(v'.db, p)
    ensures Settled(v, p) <==> Settled(v', p)
  {
    T.SameKeysSameOrders(v.db, v'.db, p);
  }

  lemma SameAccount(v: View, v': View, g: int)
    requires Alike(v, v') && v'.returned == v.returned && Stock(v'.redis, g) == Stock(v.redis, g)
    requires g in v.terms && Account(v, g)
    ensures Account(v', g)
  {
    forall p ensures HasOrder(v.db, p) <==> HasOrder(v'.db, p) {
      SameOrders(v, v', p);
    }
    assert T.Waiting(v'.redis.members, v'.db, g) == T.Waiting(v.redis.members, v.db, g);
    forall o | o in v.db.orders ensures v'.db.orders[o].good == v.db.orders[o].good {
      assert v'.db.orders[o].Key() == v.db.orders[o].Key();
    }
    assert Holding(v', g) == Holding(v, g);
  }

  lemma SameAccounts(v: View, v': View)
    requires Alike(v, v') && v'.claimed == v.claimed && v'.returned == v.returned && Accounts(v)
    requires T.OrdersGrow(v.db, v'.db)
    requires forall g :: Stock(v'.redis, g) == Stock(v.redis, g)
    ensures Accounts(v')
  {
    forall g | g in v'.terms ensures Account(v', g) {
      SameAccount(v, v', g);
    }
  }

  lemma GrabIsSound(v: View, p: Pair)
    requires Sound(v) && IsOutsider(v, p)
    ensures var v' := v.(redis := Grab(v.redis, p, v.now)); Sound(v') && Onward(v, v')
  {
    var v' := v.(redis := Grab(v.redis, p, v.now));
    forall g | g in v.terms ensures Account(v', g) {
      GrabKeepsAccount(v, p, g);
    }
    forall q ensures Settled(v, q) <==> Settled(v', q) {
    }
  }

  lemma GrabKeepsAccount(v: View, p: Pair, g: int)
    requires g in v.terms && Account(v, g) && (HasOrder(v.db, p) ==> p in v.redis.members)
    ensures Account(v.(redis := Grab(v.redis, p, v.now)), g)
  {
    var v' := v.(redis := Grab(v.redis, p, v.now));
    assert Holding(v', g) == Holding(v, g);
    if GrabReplyOf(v.redis, p) == GrabOk {
      assert T.Waiting(v'.redis.members, v.db, g) ==
             T.Waiting(v.redis.members, v.db, g) + (if g == p.good then {p} else {});
    } else {
      assert v'.redis.members == v.redis.members;
    }
  }

  /** Close tasks and locks play no part in soundness, and marks only under the stated conditions. */
  lemma OtherKeysAreSound(v: View, r: Redis)
    requires Sound(v) && r.members == v.redis.members && r.stock == v.redis.stock
    requires forall p :: p in r.pending ==> p in r.members
    requires forall p :: p in v.redis.pending && p !in r.pending ==> Settled(v, p)
    requires MarksAreDated(v.(redis := r))
    ensures Sound(v.(redis := r)) && Onward(v, v.(redis := r))
  {
    var v' := v.(redis := r);
    SameAccounts(v, v');
    forall p ensures Settled(v, p) <==> Settled(v', p) {
      SameOrders(v, v', p);
    }
  }

  lemma QueueIsSound(v: View, q: multiset<Pair>)
    requires Sound(v) && forall p :: p in q ==> p in v.redis.members
    ensures Sound(v.(queue := q)) && Onward(v, v.(queue := q))
  {
    var v' := v.(queue := q);
    SameAccounts(v, v');
    forall p ensures Settled(v, p) <==> Settled(v', p) {
      SameOrders(v, v', p);
    }
  }

  lemma TimeIsSound(v: View, id: int, now: int)
    requires Sound(v) && v.nextId <= id && v.now <= now
    ensures var v' := v.(nextId := id, now := now); Sound(v') && Onward(v, v')
  {
    var v' := v.(nextId := id, now := now);
    SameAccounts(v, v');
    forall p ensures Settled(v, p) <==> Settled(v', p) {
      SameOrders(v, v', p);
    }
  }

  /** A grab between taking and releasing a free lock leaves the lock keys as they were. */
  lemma LockLeavesNoTrace(r: Redis, p: Pair, token: int, now: int)
    requires p.good !in r.locks
    ensures ReleaseLock(Grab(TakeLock(r, p.good, token), p, now), p.good, token) == Grab(r, p, now)
    ensures GrabReplyOf(TakeLock(r, p.good, token), p) == GrabReplyOf(r, p)
  {
    assert (r.locks[p.good := token]) - {p.good} == r.locks;
  }

  /** The INCR for a dead order, by the handler that claimed it. */
  lemma ReleaseIsSound(v: View, o: int)
    requires Sound(v) && o in v.claimed
    ensures var v' := v.(redis := ReleaseSlot(v.redis, v.db.orders[o].good),
                         claimed := v.claimed - {o}, returned := v.returned + {o});
            Sound(v') && Onward(v, v')
  {
    var v' := v.(redis := ReleaseSlot(v.redis, v.db.orders[o].good),
                 claimed := v.claimed - {o}, returned := v.returned + {o});
    forall g | g in v.terms ensures Account(v', g) {
      assert Account(v, g);
      assert Holding(v', g) == Holding(v, g) - (if v.db.orders[o].good == g then {o} else {});
      assert v.db.orders[o].good == g ==> o in Holding(v, g);
    }
    forall p ensures Settled(v, p) <==> Settled(v', p) {
    }
  }

  // ---- Transactions ----------------------------------------------------------------------------------

  lemma CreateKeepsAccount(v: View, o: int, p: Pair, g: int)
    requires g in v.terms && Account(v, g) && p in v.redis.members && !T.Conflicts(v.db, o, p) && o !in v.returned
    ensures Account(v.(db := T.CreateOrder(v.db, o, p, v.now), nextId := o + 1), g)
  {
    var v' := v.(db := T.CreateOrder(v.db, o, p, v.now), nextId := o + 1);
    T.CreateEndsWaiting(v.redis.members, v.db, o, p, v.now, g);
    assert Holding(v', g) == Holding(v, g) + (if g == p.good then {o} else {});
    assert o !in Holding(v, g);
  }

  lemma CreateIsSound(v: View, o: int, p: Pair)
    requires Sound(v) && v.nextId <= o && p in v.redis.members
    ensures var v' := v.(db := T.CreateOrder(v.db, o, p, v.now), nextId := o + 1);
            Sound(v') && Onward(v, v') && HasOrder(v'.db, p)
    ensures T.Conflicts(v.db, o, p) <==> HasOrder(v.db, p)
  {
    T.DuplicateMeansOrdered(v.db, o, p);
    if HasOrder(v.db, p) {
      TimeIsSound(v, o + 1, v.now);
    } else {
      FreshCreateIsSound(v, o, p);
    }
  }

  lemma FreshCreateIsSound(v: View, o: int, p: Pair)
    requires Sound(v) && v.nextId <= o && p in v.redis.members && !T.Conflicts(v.db, o, p)
    ensures var v' := v.(db := T.CreateOrder(v.db, o, p, v.now), nextId := o + 1);
            Sound(v') && Onward(v, v') && HasOrder(v'.db, p)
  {
    var v' := v.(db := T.CreateOrder(v.db, o, p, v.now), nextId := o + 1);
    T.CreateKeepsInv(v.db, o, p, v.now);
    T.CreateGrows(v.db, o, p, v.now);
    T.CreateLeavesOrder(v.db, o, p, v.now);
    forall q | Settled(v, q) ensures Settled(v', q) {
      T.CreateOrdersOnlyItsPair(v.db, o, p, v.now, q);
    }
    forall g | g in v.terms ensures Account(v', g) {
      CreateKeepsAccount(v, o, p, g);
    }
  }

  /** Transactions that only move existing orders on; a handler claims the slots it frees. */
  lemma UpdateIsSound(v: View, db: Db, mine: set<int>)
    requires Sound(v) && T.DbInv(db) && T.OrdersGrow(v.db, db)
    requires db.orders.Keys == v.db.orders.Keys && db.goods.Keys == v.db.goods.Keys
    requires forall g :: IsOver(v.db, g) ==> IsOver(db, g)
    requires forall g :: g in db.goods ==> db.goods[g].publisher == v.db.goods[g].publisher
    requires forall o :: o in mine ==> IsDead(db, o) && !IsDead(v.db, o)
    ensures var v' := v.(db := db, claimed := v.claimed + mine); Sound(v') && Onward(v, v')
  {
    var v' := v.(db := db, claimed := v.claimed + mine);
    forall o | o in v.db.orders ensures v'.db.orders[o].Key() == v.db.orders[o].Key() {
      assert T.OrderFollows(v.db.orders[o], db.orders[o]);
    }
    forall o | o in mine ensures o !in v.returned {
      assert !IsDead(v.db, o);
    }
    forall g | g in v.terms ensures Account(v', g) {
      SameAccount(v, v', g);
    }
    forall p ensures Settled(v, p) <==> Settled(v', p) {
      SameOrders(v, v', p);
    }
  }

  lemma PayIsSound(v: View, o: int, u: int)
    requires Sound(v)
    ensures var v' := v.(db := T.PayOrder(v.db, o, u)); Sound(v') && Onward(v, v')
  {
    T.PayKeepsInv(v.db, o, u);
    T.PayGrows(v.db, o, u);
    UpdateIsSound(v, T.PayOrder(v.db, o, u), {});
    assert v.claimed + {} == v.claimed;
  }

  /** Orders a cancel or close by the caller has just ended. */
  function Ended(b: bool, o: int): set<int> { if b then {o} else {} }

  lemma CancelIsSound(v: View, o: int, u: int)
    requires Sound(v)
    ensures var v' := v.(db := T.CancelOrder(v.db, o, u), claimed := v.claimed + Ended(T.CanCancel(v.db, o, u), o));
            Sound(v') && Onward(v, v')
  {
    T.CancelKeepsInv(v.db, o, u);
    T.CancelGrows(v.db, o, u);
    UpdateIsSound(v, T.CancelOrder(v.db, o, u), Ended(T.CanCancel(v.db, o, u), o));
  }

  lemma CloseIsSound(v: View, o: int)
    requires Sound(v)
    ensures var v' := v.(db := T.EndOrder(v.db, o, Closed, v.now),
                         claimed := v.claimed + Ended(T.CanLeavePending(v.db, o), o));
            Sound(v') && Onward(v, v')
  {
    T.EndKeepsInv(v.db, o, Closed, v.now);
    T.EndGrows(v.db, o, Closed, v.now);
    UpdateIsSound(v, T.EndOrder(v.db, o, Closed, v.now), Ended(T.CanLeavePending(v.db, o), o));
  }

  /** The judge's effect on all goods at once. */
  function Judged(row: GroupBuy, now: int): GroupBuy
  {
    if row.status == Recruiting && row.deadline < now
    then row.(status := if row.current < row.min then Failed else Succeeded)
    else row
  }

  /** Judging one good keeps everything, and the late success finds no row. */
  lemma JudgeIsSound(v: View, g: int)
    requires Sound(v)
    ensures var v' := v.(db := T.JudgeFailed(v.db, g, v.now)); Sound(v') && Onward(v, v')
    ensures !T.CanSucceedLate(v.db, g, v.now) && T.JudgeSucceeded(v.db, g, v.now) == v.db
  {
    T.JudgeKeepsInv(v.db, g, v.now);
    UpdateIsSound(v, T.JudgeFailed(v.db, g, v.now), {});
    assert v.claimed + {} == v.claimed;
  }
}
