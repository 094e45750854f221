/**
 Delivery insensitivity: what the tables hold after any number of create
 messages depends only on which participations were delivered, not on their
 order or on how often each one came.
 */
module Deliveries {
  import opened Model
  import opened Protocol
  import Safety
  import T = OrderTables

  /** Participations whose create transaction has run since `start`. */
  ghost function Delivered(start: Run, r: Run): set<Pair>
    requires Continues(r, start)
    decreases r
  {
    if r == start then {}
    else Delivered(start, r.before) + (if r.event.CommitCreate? then {r.event.p} else {})
  }

  predicate Disturbs(e: Event)
  {
    e.CommitCancel? || e.CommitClose? || e.CommitFailed? || e.CommitSucceeded? || e.OpenGood? || e.DropGood?
  }

  /** Since `start` nobody cancelled, closed, judged, published or removed anything. */
  ghost predicate Undisturbed(start: Run, r: Run)
    requires Continues(r, start)
    decreases r
  {
    r == start || (Undisturbed(start, r.before) && !Disturbs(r.event))
  }

  function JoinTimes(row: GroupBuy, n: nat): GroupBuy
  {
    if n == 0 then row else T.Join(JoinTimes(row, n - 1))
  }

  /** n more orders raise the count by n and the status to what that count deserves;
      a good in a final state is left alone. */
  lemma {:induction false} JoinsAddUp(row: GroupBuy, n: nat)
    ensures JoinTimes(row, n) ==
            if n == 0 || !Countable(row.status) then row
            else row.(current := row.current + n,
                      status := T.Promote(row.status, row.current + n, row.min, row.max))
  {
    if n > 0 {
      JoinsAddUp(row, n - 1);
    }
  }

  /** The users of a good among `pairs` who had no order before. */
  ghost function Newcomers(db: Db, pairs: set<Pair>, g: int): set<Pair>
  {
    set p | p in pairs && p.good == g && !HasOrder(db, p)
  }

  ghost function GoodsAfter(from: Db, pairs: set<Pair>): map<int, GroupBuy>
  {
    map g | g in from.goods :: JoinTimes(from.goods[g], |Newcomers(from, pairs, g)|)
  }

  ghost predicate OrderedAfter(from: Db, pairs: set<Pair>, db: Db)
  {
    forall p :: HasOrder(db, p) <==> HasOrder(from, p) || p in pairs
  }

  ghost function SignupsAfter(from: Db, pairs: set<Pair>): set<Pair>
  {
    from.signups + (set p | p in pairs && !HasOrder(from, p))
  }

  /** The tables that result from `from` when exactly `pairs` are delivered. */
  ghost predicate Gathered(from: Db, pairs: set<Pair>, db: Db)
  {
    && OrderedAfter(from, pairs, db)
    && db.signups == SignupsAfter(from, pairs)
    && db.goods == GoodsAfter(from, pairs)
  }

  lemma NewcomersGrow(from: Db, pairs: set<Pair>, p: Pair, g: int)
    requires p !in pairs && !HasOrder(from, p)
    ensures |Newcomers(from, pairs + {p}, g)| == |Newcomers(from, pairs, g)| + if g == p.good then 1 else 0
  {
    assert Newcomers(from, pairs + {p}, g) == Newcomers(from, pairs, g) + If(g == p.good, p);
  }

  lemma GoodsGather(from: Db, pairs: set<Pair>, p: Pair)
    requires p !in pairs && !HasOrder(from, p)
    ensures GoodsAfter(from, pairs + {p}) == T.OnGood(GoodsAfter(from, pairs), p.good, T.Join)
  {
    forall g | g in from.goods
      ensures GoodsAfter(from, pairs + {p})[g] == T.OnGood(GoodsAfter(from, pairs), p.good, T.Join)[g]
    {
      NewcomersGrow(from, pairs, p, g);
      JoinOnce(from.goods[g], |Newcomers(from, pairs, g)|);
    }
  }

  lemma JoinOnce(row: GroupBuy, n: nat)
    ensures JoinTimes(row, n + 1) == T.Join(JoinTimes(row, n))
  {
  }

  lemma RepeatGathersNothing(from: Db, pairs: set<Pair>, p: Pair)
    requires HasOrder(from, p) || p in pairs
    ensures GoodsAfter(from, pairs + {p}) == GoodsAfter(from, pairs)
    ensures SignupsAfter(from, pairs + {p}) == SignupsAfter(from, pairs)
  {
    forall g ensures Newcomers(from, pairs + {p}, g) == Newcomers(from, pairs, g) {
    }
  }

  lemma OneMoreGathered(from: Db, pairs: set<Pair>, db: Db, o: int, p: Pair, now: int)
    requires Gathered(from, pairs, db) && (T.Conflicts(db, o, p) <==> HasOrder(db, p))
    ensures Gathered(from, pairs + {p}, T.CreateOrder(db, o, p, now))
  {
    var db' := T.CreateOrder(db, o, p, now);
    if HasOrder(db, p) {
      RepeatGathersNothing(from, pairs, p);
    } else {
      assert !HasOrder(from, p) && p !in pairs;
      GoodsGather(from, pairs, p);
      forall q ensures HasOrder(db', q) <==> HasOrder(from, q) || q in pairs + {p} {
        T.CreateOrdersOnlyItsPair(db, o, p, now, q);
      }
      assert db'.signups == SignupsAfter(from, pairs + {p});
    }
  }

  /** Steps that touch neither orders, sign-ups nor goods, except that an order may be paid. */
  lemma OthersOnlyPay(w: World, e: Event)
    requires !Disturbs(e) && !e.CommitCreate?
    ensures T.SameKeys(w.db, DbAfter(w, e))
    ensures DbAfter(w, e).goods == w.db.goods && DbAfter(w, e).signups == w.db.signups
  {
  }

  lemma OthersGatherNothing(w: World, e: Event, from: Db, pairs: set<Pair>)
    requires Gathered(from, pairs, w.db) && !Disturbs(e) && !e.CommitCreate?
    ensures Gathered(from, pairs, DbAfter(w, e))
  {
    OthersOnlyPay(w, e);
    forall p ensures HasOrder(DbAfter(w, e), p) <==> HasOrder(w.db, p) {
      T.SameKeysSameOrders(w.db, DbAfter(w, e), p);
    }
  }

  lemma StepGathers(w: World, h: History, e: Event, w': World, h': History, from: Db, pairs: set<Pair>)
    requires Takes(w, h, e, w', h') && !Disturbs(e) && Gathered(from, pairs, w.db)
    requires e.CommitCreate? ==> (T.Conflicts(w.db, e.order, e.p) <==> HasOrder(w.db, e.p))
    ensures Gathered(from, pairs + (if e.CommitCreate? then {e.p} else {}), w'.db)
  {
    Taken(w, h, e, w', h');
    if e.CommitCreate? {
      OneMoreGathered(from, pairs, w.db, e.order, e.p, w.now);
    } else {
      OthersGatherNothing(w, e, from, pairs);
      assert pairs + {} == pairs;
    }
  }

  lemma NothingGathered(db: Db)
    ensures Gathered(db, {}, db)
  {
    assert forall g :: Newcomers(db, {}, g) == {};
  }

  /** The tables are a function of the tables at the start and of the set delivered. */
  lemma {:induction false} TablesFollowFromSet(start: Run, r: Run)
    requires Valid(r) && Continues(r, start) && Undisturbed(start, r)
    ensures Gathered(Now(start).db, Delivered(start, r), Now(r).db)
    decreases r
  {
    if r == start {
      NothingGathered(Now(start).db);
    } else {
      TablesFollowFromSet(start, r.before);
      if r.event.CommitCreate? {
        Safety.RefusedExactlyWhenOrdered(r);
      }
      StepGathers(Now(r.before), Log(r.before), r.event, r.now, r.log, Now(start).db, Delivered(start, r.before));
    }
  }

  /** Two ways of delivering the same set of messages end with the same ordering users,
      sign-ups, member counts and statuses. */
  lemma DeliveryOrderIsIrrelevant(start: Run, a: Run, b: Run)
    requires Valid(a) && Continues(a, start) && Undisturbed(start, a)
    requires Valid(b) && Continues(b, start) && Undisturbed(start, b)
    requires Delivered(start, a) == Delivered(start, b)
    ensures Now(a).db.goods == Now(b).db.goods && Now(a).db.signups == Now(b).db.signups
    ensures forall p :: HasOrder(Now(a).db, p) <==> HasOrder(Now(b).db, p)
  {
    TablesFollowFromSet(start, a);
    TablesFollowFromSet(start, b);
    SameSetSameTables(Now(start).db, Delivered(start, a), Now(a).db, Now(b).db);
  }

  lemma SameSetSameTables(from: Db, pairs: set<Pair>, a: Db, b: Db)
    requires Gathered(from, pairs, a) && Gathered(from, pairs, b)
    ensures a.goods == b.goods && a.signups == b.signups
    ensures forall p :: HasOrder(a, p) <==> HasOrder(b, p)
  {
  }
}
