/**
 The stored entities of the grab-and-order system: group-buy rows, order rows
 and the MySQL tables that hold them.
 */
module Model {

  /** One participation: a user in a group buy.  Key of the unique indexes
      uk_user_good (orders) and uk_good_user (sign-ups), and of a pending mark. */
  datatype Pair = Pair(good: int, user: int)

  datatype GoodStatus = Recruiting | Succeeded | Full | Failed | Expired

  datatype GroupBuy = GroupBuy(
    publisher: int, min: int, max: int, current: int, deadline: int, status: GoodStatus)

  datatype OrderStatus = PendingPay | Paid | Cancelled | Completed | Closed

  datatype Order = Order(user: int, good: int, status: OrderStatus, createdAt: int, closedAt: int)
  {
    function Key(): Pair { Pair(good, user) }

    /** An order that still occupies its slot. */
    predicate IsLive() { status != Cancelled && status != Closed }
  }

  datatype Category = TellPendingPay | TellPaid | TellCancelled | TellClosed | TellSucceeded | TellFailed

  /** A station message.  The triple is the unique key of the notification table. */
  datatype Notice = Notice(user: int, category: Category, ref: int)

  /** The three tables a transaction of the order module touches. */
  datatype Db = Db(goods: map<int, GroupBuy>, orders: map<int, Order>, signups: set<Pair>)

  predicate HasOrder(db: Db, p: Pair)
  {
    exists o :: o in db.orders && db.orders[o].Key() == p
  }

  predicate HasLiveOrder(db: Db, p: Pair)
  {
    exists o :: o in db.orders && db.orders[o].Key() == p && db.orders[o].IsLive()
  }

  /** An order that has given up its slot. */
  predicate IsDead(db: Db, o: int)
  {
    o in db.orders && !db.orders[o].IsLive()
  }

  /** No order can be made for the pair any more, its good or its user being gone. */
  predicate TargetGone(db: Db, users: set<int>, p: Pair)
  {
    p.good !in db.goods || p.user !in users
  }

  /** Nothing is left to do for the pair: its order exists or can never be made. */
  ghost predicate IsSettled(db: Db, users: set<int>, p: Pair)
  {
    HasOrder(db, p) || TargetGone(db, users, p)
  }

  /** Stock, waiting members and orders that hold a slot share out the slots of a good. */
  predicate SlotsAddUp(stock: int, waiting: set<Pair>, holding: set<int>, max: int)
  {
    0 <= stock && stock + |waiting| + |holding| == max
  }

  /** A good that recruits no more and never will: it failed, or its row is gone. */
  predicate IsOver(db: Db, g: int)
  {
    g !in db.goods || db.goods[g].status == Failed
  }

  /** Users signed up for a good. */
  function SignedUp(db: Db, g: int): set<int>
  {
    set p | p in db.signups && p.good == g :: p.user
  }

  function LiveOrders(db: Db, g: int): set<int>
  {
    set o | o in db.orders && db.orders[o].good == g && db.orders[o].IsLive()
  }

  /** States in which an order still counts towards current_members. */
  predicate Countable(s: GoodStatus)
  {
    s == Recruiting || s == Succeeded || s == Full
  }
}
