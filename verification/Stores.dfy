/**
 The stores as objects: MySQL tables changed statement by statement, Redis keys
 changed command by command.  Every method is proved equal to its atomic step.
 */
module Stores {
  import opened Model
  import opened RedisKeys
  import R = RedisKeys
  import T = OrderTables
  import L = RowLocks
  import Sets
  import Shared

  // ---- MySQL --------------------------------------------------------------------------

  class MySql {
    var goods: map<int, GroupBuy>
    var orders: map<int, Order>
    var signups: set<Pair>

    constructor ()
      ensures Tables() == Db(map[], map[], {})
    {
      goods, orders, signups := map[], map[], {};
    }

    function Tables(): Db
      reads this
    {
      Db(goods, orders, signups)
    }

    /** Order, sign-up, member count and the two status flips in one transaction. */
    method CreateOrderTx(o: int, p: Pair, now: int) returns (r: L.Result)
      modifies this
      ensures Tables() == T.CreateOrder(old(Tables()), o, p, now)
      ensures r == L.AloneResult(old(Tables()), L.Create(o, p, now))
    {
      var counted, succeeded, full := false, false, false;
      // write 1: order row, unique on order_id and on (user, good)
      if o in orders || exists x :: x in orders && orders[x].Key() == p {
        return L.Refused;
      }
      var ordersBefore := orders;
      orders := orders[o := Order(p.user, p.good, PendingPay, now, 0)];
      // write 2: sign-up row, unique on (good, user)
      if p in signups {
        orders := ordersBefore;
        return L.Refused;
      }
      signups := signups + {p};
      // write 3: one more member, unless the good has reached a final state
      if p.good in goods && Countable(goods[p.good].status) {
        goods := goods[p.good := goods[p.good].(current := goods[p.good].current + 1)];
        counted := true;
      }
      // write 4a: recruiting -> succeeded
      if p.good in goods && goods[p.good].status == Recruiting && goods[p.good].current >= goods[p.good].min {
        goods := goods[p.good := goods[p.good].(status := Succeeded)];
        succeeded := true;
      }
      // write 4b: succeeded -> full
      if p.good in goods && goods[p.good].status == Succeeded && goods[p.good].current >= goods[p.good].max {
        goods := goods[p.good := goods[p.good].(status := Full)];
        full := true;
      }
      return L.Done(counted, succeeded, full);
    }

    method UpdateOrderPaid(o: int, u: int) returns (ok: bool)
      modifies this
      ensures Tables() == T.PayOrder(old(Tables()), o, u)
      ensures ok <==> T.CanPay(old(Tables()), o, u)
    {
      ok := o in orders && orders[o].user == u && orders[o].status == PendingPay;
      if ok {
        orders := orders[o := orders[o].(status := Paid)];
      }
    }

    /** Writes 2 and 3 shared by cancel and close: one member less, sign-up row gone. */
    method LeaveGood(key: Pair)
      modifies this`goods, this`signups
      ensures goods == T.OnGood(old(goods), key.good, T.Leave) && signups == old(signups) - {key}
    {
      if key.good in goods && goods[key.good].current > 0 {
        goods := goods[key.good := goods[key.good].(current := goods[key.good].current - 1)];
      }
      signups := signups - {key};
    }

    method CancelOrderTx(o: int, u: int) returns (good: int, ok: bool)
      modifies this
      ensures Tables() == T.CancelOrder(old(Tables()), o, u)
      ensures ok <==> T.CanCancel(old(Tables()), o, u)
      ensures ok ==> good == old(orders)[o].good
    {
      if o !in orders || orders[o].user != u {
        return 0, false;
      }
      var row := orders[o];
      if row.status != PendingPay {
        return 0, false;
      }
      orders := orders[o := row.(status := Cancelled)];
      LeaveGood(row.Key());
      return row.good, true;
    }

    method CloseExpiredOrder(o: int, now: int) returns (good: int, user: int, closed: bool)
      modifies this
      ensures Tables() == T.EndOrder(old(Tables()), o, Closed, now)
      ensures closed <==> T.CanLeavePending(old(Tables()), o)
      ensures closed ==> good == old(orders)[o].good && user == old(orders)[o].user
    {
      if o !in orders {
        return 0, 0, false;
      }
      var row := orders[o];
      if row.status != PendingPay {
        return 0, 0, false;
      }
      orders := orders[o := row.(status := Closed, closedAt := now)];
      LeaveGood(row.Key());
      return row.good, row.user, true;
    }

    /** SELECT good_id WHERE recruiting AND past the deadline AND short of / at the minimum. */
    method Candidates(now: int, short: bool) returns (ids: seq<int>)
      ensures forall g :: g in ids <==>
                if short then T.CanFail(Tables(), g, now) else T.CanSucceedLate(Tables(), g, now)
      ensures forall i, j :: 0 <= i < j < |ids| ==> ids[i] != ids[j]
    {
      ids := [];
      var rest := goods.Keys;
      while rest != {}
        invariant rest <= goods.Keys
        invariant forall g :: g in ids <==>
                    (g !in rest && if short then T.CanFail(Tables(), g, now) else T.CanSucceedLate(Tables(), g, now))
        invariant forall i, j :: 0 <= i < j < |ids| ==> ids[i] != ids[j]
        decreases rest
      {
        var g := Sets.Pick(rest);
        rest := rest - {g};
        var row := goods[g];
        if row.status == Recruiting && row.deadline < now && (row.current < row.min <==> short) {
          ids := ids + [g];
        }
      }
    }

    /** UPDATE ... SET failed under the candidates' own condition; hit means one row changed. */
    method FailIfDue(g: int, now: int) returns (hit: bool)
      modifies this`goods
      ensures Tables() == T.JudgeFailed(old(Tables()), g, now) && (hit <==> T.CanFail(old(Tables()), g, now))
    {
      hit := false;
      if g in goods {
        var row := goods[g];
        if row.status == Recruiting && row.deadline < now && row.current < row.min {
          goods := goods[g := row.(status := Failed)];
          hit := true;
        }
      }
    }

    method SucceedIfDue(g: int, now: int) returns (hit: bool)
      modifies this`goods
      ensures Tables() == T.JudgeSucceeded(old(Tables()), g, now) && (hit <==> T.CanSucceedLate(old(Tables()), g, now))
    {
      hit := false;
      if g in goods {
        var row := goods[g];
        if row.status == Recruiting && row.deadline < now && row.current >= row.min {
          goods := goods[g := row.(status := Succeeded)];
          hit := true;
        }
      }
    }

    /** Select the candidates, then flip row by row under the same condition; the ids
        returned are exactly the rows flipped. */
    method JudgeExpiredGroupBuys(now: int) returns (failed: seq<int>, succeeded: seq<int>)
      modifies this`goods
      ensures goods.Keys == old(goods).Keys && forall g :: g in goods ==> goods[g] == Shared.Judged(old(goods)[g], now)
      ensures forall g :: g in failed <==> T.CanFail(old(Tables()), g, now)
      ensures forall g :: g in succeeded <==> T.CanSucceedLate(old(Tables()), g, now)
      ensures forall i, j :: 0 <= i < j < |failed| ==> failed[i] != failed[j]
      ensures forall i, j :: 0 <= i < j < |succeeded| ==> succeeded[i] != succeeded[j]
    {
      failed := [];
      var short := Candidates(now, true);
      for i := 0 to |short|
        invariant goods.Keys == old(goods).Keys && failed == short[..i]
        invariant forall g :: g in goods ==>
                    goods[g] == if g in short[..i] then old(goods)[g].(status := Failed) else old(goods)[g]
      {
        assert short[..i + 1] == short[..i] + [short[i]];
        assert short[i] !in short[..i] && short[i] in short;
        var hit := FailIfDue(short[i], now);
        if hit {
          failed := failed + [short[i]];
        }
      }
      assert short[..|short|] == short;
      assert forall g :: T.CanSucceedLate(Tables(), g, now) <==> T.CanSucceedLate(old(Tables()), g, now);
      succeeded := [];
      ghost var halfway := goods;
      var late := Candidates(now, false);
      for i := 0 to |late|
        invariant goods.Keys == halfway.Keys && succeeded == late[..i]
        invariant forall g :: g in goods ==>
                    goods[g] == if g in late[..i] then halfway[g].(status := Succeeded) else halfway[g]
      {
        assert late[..i + 1] == late[..i] + [late[i]];
        assert late[i] !in late[..i] && late[i] in late;
        var hit := SucceedIfDue(late[i], now);
        if hit {
          succeeded := succeeded + [late[i]];
        }
      }
      assert late[..|late|] == late;
    }
  }

  // ---- Redis ----------------------------------------------------------------------------

  class RedisServer {
    var stock: map<int, int>
    var members: set<Pair>
    var pending: map<Pair, int>
    var closeAt: map<int, int>
    var locks: map<int, int>

    constructor ()
      ensures Keys() == Redis(map[], {}, map[], map[], map[])
    {
      stock, members, pending, closeAt, locks := map[], {}, map[], map[], map[];
    }

    function Keys(): Redis
      reads this
    {
      Redis(stock, members, pending, closeAt, locks)
    }

    /** INCRBY on a counter; a missing one counts as 0. */
    method IncrBy(g: int, amount: int) returns (value: int)
      modifies this`stock
      ensures value == R.Stock(old(Keys()), g) + amount && stock == old(stock)[g := value]
    {
      value := (if g in stock then stock[g] else 0) + amount;
      stock := stock[g := value];
    }

    /** The pre-deduct script, command by command. */
    method ExecGrabLua(p: Pair, now: int) returns (reply: GrabReply)
      modifies this
      ensures Keys() == Grab(old(Keys()), p, now) && reply == GrabReplyOf(old(Keys()), p)
    {
      if p in members {
        return Already;
      }
      var left := IncrBy(p.good, -1);
      if left < 0 {
        var restored := IncrBy(p.good, 1);
        return SoldOut;
      }
      members := members + {p};
      pending := pending[p := Unix(now)];
      return GrabOk;
    }

    method ReleaseGroupBuySlot(g: int)
      modifies this
      ensures Keys() == ReleaseSlot(old(Keys()), g)
    {
      var value := IncrBy(g, 1);
    }

    method RemoveGrabPending(p: Pair)
      modifies this
      ensures Keys() == ClearMark(old(Keys()), p)
    {
      pending := pending - {p};
    }

    method RenewGrabPending(p: Pair, now: int)
      modifies this
      ensures Keys() == RenewMark(old(Keys()), p, now)
    {
      pending := pending[p := Unix(now)];
    }

    method EnqueueOrderClose(o: int, now: int)
      modifies this
      ensures Keys() == ScheduleClose(old(Keys()), o, now)
    {
      closeAt := closeAt[o := Unix(now + ORDER_CLOSE_DELAY)];
    }

    method RemoveOrderClose(o: int)
      modifies this
      ensures Keys() == UnscheduleClose(old(Keys()), o)
    {
      closeAt := closeAt - {o};
    }

    /** SET NX EX: refused while somebody's token is there. */
    method AcquireLock(g: int, token: int) returns (ok: bool)
      modifies this
      ensures Keys() == TakeLock(old(Keys()), g, token) && (ok <==> g !in old(locks))
    {
      ok := g !in locks;
      if ok {
        locks := locks[g := token];
      }
    }

    /** Compare-and-delete script. */
    method FreeLock(g: int, token: int) returns (released: bool)
      modifies this
      ensures Keys() == ReleaseLock(old(Keys()), g, token)
      ensures released <==> g in old(locks) && old(locks)[g] == token
      ensures if released then g !in locks else locks == old(locks)
    {
      released := g in locks && locks[g] == token;
      if released {
        locks := locks - {g};
      }
    }
  }
}
