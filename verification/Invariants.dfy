/**
 The inductive invariant of the protocol, one predicate per concern, and the
 proof that every step keeps it.
 */
module Invariants {
  import opened Model
  import opened RedisKeys
  import opened Protocol
  import T = OrderTables

  // ---- The invariant -------------------------------------------------------------

  predicate SameTerms(a: GroupBuy, b: GroupBuy)
  {
    a.publisher == b.publisher && a.min == b.min && a.max == b.max && a.deadline == b.deadline
  }

  /** Ids are never reused, members come from published goods, orders from members. */
  ghost predicate Known(w: World, h: History)
  {
    && (forall u :: u in w.users ==> u < w.nextId)
    && (forall g :: g in h.terms ==> g < w.nextId && g in w.redis.stock)
    && (forall g :: g in w.db.goods ==> g in h.terms && SameTerms(w.db.goods[g], h.terms[g]))
    && (forall p :: p in w.redis.members ==> p.good in h.terms && p.user < w.nextId)
    && (forall o :: o in w.db.orders ==> o < w.nextId && w.db.orders[o].Key() in w.redis.members)
  }

  ghost predicate Settled(w: World, p: Pair)
  {
    IsSettled(w.db, w.users, p)
  }

  /** A notice only ever says what some transaction reported. */
  ghost predicate Justified(h: History, n: Notice)
  {
    match n.category
    case TellPendingPay => true
    case TellPaid => h.facts[PaidWin(n.ref)] >= 1
    case TellCancelled => h.facts[CancelWin(n.ref)] >= 1
    case TellClosed => h.facts[CloseWin(n.ref)] >= 1
    case TellSucceeded => h.facts[Elected(n.ref)] + h.facts[SucceededHit(n.ref)] >= 1
    case TellFailed => h.facts[FailedHit(n.ref)] >= 1
  }

  ghost predicate TaskOk(w: World, h: History, t: Task)
  {
    match t
    case ReadBuyer(p) => p.good in h.terms
    case TryLock(p) => p.good in h.terms && p.user < w.nextId
    case Locked(p, token) => p.good in h.terms && p.user < w.nextId
    case SendGrab(p) => p in w.redis.members
    case Unlock(g, token) => true
    case ReadGood(p) => p in w.redis.members
    case ReadUser(p) => p in w.redis.members
    case InsertOrder(p) => p in w.redis.members
    case ClearPending(p) => p in w.redis.members && Settled(w, p)
    case AckMessage(p) => p in w.redis.members && Settled(w, p)
    case NackMessage(p) => p in w.redis.members
    case EnqueueClose(o) => o in w.db.orders
    case Resend(p) => p in w.redis.members
    case Renew(p) => p in w.redis.members
    case Pay(o, u) => o in w.db.orders && w.db.orders[o].user == u
    case Cancel(o, u) => o in w.db.orders && w.db.orders[o].user == u
    case Close(o) => o in w.db.orders && w.now >= w.db.orders[o].createdAt + ORDER_CLOSE_DELAY
    case ReturnSlot(o) => o in w.db.orders && !w.db.orders[o].IsLive()
    case DropClose(o) => o in w.db.orders && w.db.orders[o].status != PendingPay
    case FailGood(g) => true
    case SucceedGood(g) => true
    case TellMembers(g, c) =>
      (c == TellSucceeded || c == TellFailed) && Justified(h, Notice(0, c, g))
    case Tell(n) => Justified(h, n)
  }

  ghost predicate TasksOk(w: World, h: History)
  {
    forall t :: t in w.tasks ==> TaskOk(w, h, t)
  }

  /** Messages and marks stand for pre-deducts; compensation rows for real orders. */
  ghost predicate QueuesOk(w: World, h: History)
  {
    && (forall p :: p in w.queue ==> p in w.redis.members)
    && (forall p :: p in w.redis.pending ==> p in w.redis.members)
    && (forall n :: n in w.mail ==> Justified(h, n))
    && (forall i :: i in w.inbox ==> i < w.nextId && Justified(h, w.inbox[i]))
    && (forall o :: OweClose(o) in w.owed ==> o in w.db.orders)
    && (forall n :: OweNotice(n) in w.owed ==> Justified(h, n))
  }

  /** No grab is silently lost. */
  ghost predicate NoGrabLost(w: World)
  {
    forall p :: p in w.redis.members ==> p in w.redis.pending || Settled(w, p)
  }

  function Bit(b: bool): nat { if b then 1 else 0 }

  /** Every dead order has at most one slot return, done or still to do; a live one has none. */
  ghost predicate ReturnsOnce(w: World, h: History)
  {
    forall o :: w.tasks[ReturnSlot(o)] + h.facts[SlotReturned(o)] <= Bit(IsDead(w.db, o))
  }

  /** Orders of a good whose slot has not gone back to the stock. */
  ghost function Unreturned(db: Db, facts: multiset<Fact>, g: int): set<int>
  {
    set o | o in db.orders && db.orders[o].good == g && facts[SlotReturned(o)] == 0
  }

  ghost predicate ConservedAt(r: Redis, db: Db, facts: multiset<Fact>, g: int, max: int)
  {
    SlotsAddUp(Stock(r, g), T.Waiting(r.members, db, g), Unreturned(db, facts, g), max)
  }

  ghost predicate Conserved(w: World, h: History)
  {
    forall g :: g in h.terms ==> ConservedAt(w.redis, w.db, h.facts, g, h.terms[g].max)
  }

  predicate HasStatus(db: Db, o: int, s: OrderStatus)
  {
    o in db.orders && db.orders[o].status == s
  }

  /** The final status of an order is exactly the one winning call's. */
  ghost predicate OutcomeOf(db: Db, facts: multiset<Fact>, o: int)
  {
    && facts[PaidWin(o)] == Bit(HasStatus(db, o, Paid))
    && facts[CancelWin(o)] == Bit(HasStatus(db, o, Cancelled))
    && facts[CloseWin(o)] == Bit(HasStatus(db, o, Closed))
  }

  ghost predicate OneOutcome(w: World, h: History)
  {
    forall o :: OutcomeOf(w.db, h.facts, o)
  }

  predicate GoodIs(db: Db, g: int, s: GoodStatus)
  {
    g in db.goods && db.goods[g].status == s
  }

  /** Who moved a good out of recruiting, and that nobody did so twice. */
  ghost predicate ElectionOf(db: Db, nextId: int, facts: multiset<Fact>, g: int)
  {
    && facts[SucceededHit(g)] == 0
    && facts[Elected(g)] + facts[FailedHit(g)] <= 1
    && facts[Filled(g)] <= 1
    && (nextId <= g ==> facts[Elected(g)] + facts[FailedHit(g)] + facts[Filled(g)] == 0)
    && (g in db.goods ==>
          && facts[Elected(g)] == Bit(GoodIs(db, g, Succeeded) || GoodIs(db, g, Full))
          && facts[FailedHit(g)] == Bit(GoodIs(db, g, Failed))
          && facts[Filled(g)] == Bit(GoodIs(db, g, Full)))
  }

  ghost predicate Elections(w: World, h: History)
  {
    forall g :: ElectionOf(w.db, w.nextId, h.facts, g)
  }

  predicate TimesOf(row: Order, now: int)
  {
    row.createdAt <= now && (row.status == Closed ==> row.closedAt >= row.createdAt + ORDER_CLOSE_DELAY)
  }

  /** Close tasks fall due no earlier than 30 minutes after the order was created. */
  ghost predicate Times(w: World)
  {
    && (forall o :: o in w.db.orders ==> TimesOf(w.db.orders[o], w.now))
    && (forall o :: o in w.redis.closeAt ==>
          o in w.db.orders && w.redis.closeAt[o] >= Unix(w.db.orders[o].createdAt + ORDER_CLOSE_DELAY))
  }

  ghost predicate OneNoticeEach(w: World)
  {
    forall i, j :: i in w.inbox && j in w.inbox && w.inbox[i] == w.inbox[j] ==> i == j
  }

  ghost predicate Inv(w: World, h: History)
  {
    && T.DbInv(w.db)
    && Known(w, h)
    && TasksOk(w, h)
    && QueuesOk(w, h)
    && NoGrabLost(w)
    && ReturnsOnce(w, h)
    && Conserved(w, h)
    && OneOutcome(w, h)
    && Elections(w, h)
    && Times(w)
    && OneNoticeEach(w)
  }

  // ---- Growth: what later steps never take back ----------------------------------------

  ghost predicate Grows(w: World, h: History, w': World, h': History)
  {
    && T.OrdersGrow(w.db, w'.db)
    && w.redis.members <= w'.redis.members
    && (forall g :: g < w.nextId && g !in w.db.goods ==> g !in w'.db.goods)
    && (forall g :: g < w.nextId && IsOver(w.db, g) ==> IsOver(w'.db, g))
    && (forall u :: u < w.nextId && u !in w.users ==> u !in w'.users)
    && w.nextId <= w'.nextId && w.now <= w'.now
    && h.facts <= h'.facts
    && (forall g :: g in h.terms ==> g in h'.terms && h'.terms[g] == h.terms[g])
  }

  predicate WritesOrders(e: Event)
  {
    e.CommitCreate? || e.CommitPay? || e.CommitCancel? || e.CommitClose?
  }

  lemma OrdersNotWritten(w: World, e: Event)
    requires !WritesOrders(e)
    ensures DbAfter(w, e).orders == w.db.orders
  {
  }

  lemma OrdersGrowInStep(w: World, e: Event)
    ensures T.OrdersGrow(w.db, DbAfter(w, e))
  {
    match e
    case CommitCreate(p, o, _) => T.CreateGrows(w.db, o, p, w.now);
    case CommitPay(o, u, _) => T.PayGrows(w.db, o, u);
    case CommitCancel(o, u, _) => T.CancelGrows(w.db, o, u);
    case CommitClose(o, _) => T.EndGrows(w.db, o, Closed, w.now);
    case _ => OrdersNotWritten(w, e);
  }

  lemma GoodsOpenOnce(w: World, e: Event, g: int)
    requires g in DbAfter(w, e).goods
    ensures g in w.db.goods || (e.OpenGood? && e.good == g)
  {
  }

  /** Publishing a fresh good clears a member set that is empty anyway. */
  lemma OpenKeepsMembers(w: World, h: History, g: int, max: int)
    requires Known(w, h) && w.nextId <= g
    ensures OpenStock(w.redis, g, max).members == w.redis.members
  {
  }

  lemma MembersGrow(w: World, h: History, e: Event)
    requires Known(w, h) && Guard(w, e)
    ensures w.redis.members <= RedisAfter(w, e).members
  {
    if e.OpenGood? {
      OpenKeepsMembers(w, h, e.good, e.row.max);
    } else {
      MembersGrowOtherwise(w, e);
    }
  }

  lemma MembersGrowOtherwise(w: World, e: Event)
    requires !e.OpenGood?
    ensures w.redis.members <= RedisAfter(w, e).members
  {
  }

  lemma StockKeysGrow(w: World, e: Event, g: int)
    requires g in w.redis.stock
    ensures g in RedisAfter(w, e).stock
  {
  }

  lemma MissingGoodsStay(w: World, e: Event)
    requires Guard(w, e)
    ensures forall g :: g < w.nextId && g !in w.db.goods ==> g !in DbAfter(w, e).goods
  {
    forall g | g < w.nextId && g !in w.db.goods ensures g !in DbAfter(w, e).goods {
      if g in DbAfter(w, e).goods {
        GoodsOpenOnce(w, e, g);
      }
    }
  }

  lemma OverStays(w: World, e: Event)
    requires Guard(w, e)
    ensures forall g :: g < w.nextId && IsOver(w.db, g) ==> IsOver(DbAfter(w, e), g)
  {
    MissingGoodsStay(w, e);
  }

  lemma StepGrows(w: World, h: History, e: Event)
    requires Known(w, h) && Guard(w, e)
    ensures Grows(w, h, Apply(w, e), Record(h, w, e))
  {
    OrdersGrowInStep(w, e);
    MembersGrow(w, h, e);
    MissingGoodsStay(w, e);
    OverStays(w, e);
    MissingUsersStay(w, e);
    TermsStay(w, h, e);
  }

  lemma MissingUsersStay(w: World, e: Event)
    requires Guard(w, e)
    ensures forall u :: u < w.nextId && u !in w.users ==> u !in UsersAfter(w, e)
    ensures w.nextId <= NextIdAfter(w, e)
  {
  }

  lemma TermsStay(w: World, h: History, e: Event)
    requires (forall g :: g in h.terms ==> g < w.nextId) && Guard(w, e)
    ensures forall g :: g in h.terms ==> g in Published(h.terms, e) && Published(h.terms, e)[g] == h.terms[g]
  {
  }

  lemma StaysOrdered(a: Db, b: Db, p: Pair)
    requires T.OrdersGrow(a, b) && HasOrder(a, p)
    ensures HasOrder(b, p)
  {
    var o :| o in a.orders && a.orders[o].Key() == p;
    assert b.orders[o].Key() == p;
  }

  lemma StaysSettled(w: World, h: History, w': World, h': History, p: Pair)
    requires Grows(w, h, w', h') && Known(w, h)
    requires p in w.redis.members && Settled(w, p)
    ensures Settled(w', p)
  {
    if HasOrder(w.db, p) {
      StaysOrdered(w.db, w'.db, p);
    }
  }

  lemma StaysJustified(h: History, h': History, n: Notice)
    requires h.facts <= h'.facts && Justified(h, n)
    ensures Justified(h', n)
  {
  }

  lemma TaskStaysOk(w: World, h: History, w': World, h': History, t: Task)
    requires Grows(w, h, w', h') && Known(w, h) && TaskOk(w, h, t)
    ensures TaskOk(w', h', t)
  {
    match t
    case ClearPending(p) => StaysSettled(w, h, w', h', p);
    case AckMessage(p) => StaysSettled(w, h, w', h', p);
    case TellMembers(g, c) => StaysJustified(h, h', Notice(0, c, g));
    case Tell(n) => StaysJustified(h, h', n);
    case _ =>
  }

  // ---- Every step keeps every part -----------------------------------------------------

  /** What is known of the piece of work an event carries out. */
  ghost predicate CarriedOk(w: World, h: History, e: Event)
  {
    forall t :: t in Carried(e) ==> TaskOk(w, h, t)
  }

  lemma CarriedIsOk(w: World, h: History, e: Event)
    requires TasksOk(w, h) && Enabled(w, e)
    ensures CarriedOk(w, h, e)
  {
  }

  lemma DbKept(w: World, h: History, e: Event)
    requires T.DbInv(w.db) && Known(w, h) && Guard(w, e)
    ensures T.DbInv(DbAfter(w, e))
  {
    if e.OpenGood? {
      RowsKeptByOpen(w, h, e.good, e.row);
    } else if e.DropGood? {
      RowsKeptByDrop(w.db, e.good);
    } else {
      TransactionsKeep(w, e);
    }
  }

  lemma TransactionsKeep(w: World, e: Event)
    requires T.DbInv(w.db) && !e.OpenGood? && !e.DropGood?
    ensures T.DbInv(DbAfter(w, e))
  {
    match e
    case CommitCreate(p, o, _) => T.CreateKeepsInv(w.db, o, p, w.now);
    case CommitPay(o, u, _) => T.PayKeepsInv(w.db, o, u);
    case CommitCancel(o, u, _) => T.CancelKeepsInv(w.db, o, u);
    case CommitClose(o, _) => T.EndKeepsInv(w.db, o, Closed, w.now);
    case CommitFailed(g, _) => T.JudgeKeepsInv(w.db, g, w.now);
    case CommitSucceeded(g, _) => T.JudgeKeepsInv(w.db, g, w.now);
    case _ =>
  }

  lemma RowsKeptByOpen(w: World, h: History, g: int, row: GroupBuy)
    requires T.DbInv(w.db) && Known(w, h)
    requires w.nextId <= g && row.status == Recruiting && row.current == 0 && 1 <= row.min <= row.max
    ensures T.DbInv(w.db.(goods := w.db.goods[g := row]))
  {
    var db, db' := w.db, w.db.(goods := w.db.goods[g := row]);
    SameSignups(db, db');
    forall x | x in db'.goods ensures T.RowInv(db', x) {
      assert LiveOrders(db', x) == LiveOrders(db, x);
      if x == g {
        assert LiveOrders(db, g) == {} by {
          forall o | o in db.orders ensures db.orders[o].good != g {
            assert db.orders[o].Key() in w.redis.members;
          }
        }
      } else {
        assert T.RowInv(db, x);
      }
    }
  }

  lemma RowsKeptByDrop(db: Db, g: int)
    requires T.DbInv(db)
    ensures T.DbInv(db.(goods := db.goods - {g}))
  {
    var db' := db.(goods := db.goods - {g});
    SameSignups(db, db');
    forall x | x in db'.goods ensures T.RowInv(db', x) {
      assert T.RowInv(db, x);
      assert LiveOrders(db', x) == LiveOrders(db, x);
    }
  }

  lemma SameSignups(db: Db, db': Db)
    requires T.SignupsAreLive(db) && db'.orders == db.orders && db'.signups == db.signups
    ensures T.SignupsAreLive(db')
  {
    forall q ensures HasLiveOrder(db', q) <==> HasLiveOrder(db, q) {
      T.SameLiveKey(db, db', q);
      T.SameLiveKey(db', db, q);
    }
  }

  lemma NewOrder(w: World, e: Event, o: int)
    requires o in DbAfter(w, e).orders
    ensures (o in w.db.orders && DbAfter(w, e).orders[o].Key() == w.db.orders[o].Key()) ||
            (e.CommitCreate? && o == e.order && DbAfter(w, e).orders[o].Key() == e.p)
  {
  }

  lemma OrdersKnown(w: World, h: History, e: Event)
    requires Known(w, h) && CarriedOk(w, h, e) && Guard(w, e)
    ensures forall o :: o in DbAfter(w, e).orders ==>
              o < NextIdAfter(w, e) && DbAfter(w, e).orders[o].Key() in w.redis.members
  {
    MissingUsersStay(w, e);
    if e.CommitCreate? {
      assert TaskOk(w, h, InsertOrder(e.p));
    }
    forall o | o in DbAfter(w, e).orders
      ensures o < NextIdAfter(w, e) && DbAfter(w, e).orders[o].Key() in w.redis.members
    {
      NewOrder(w, e, o);
    }
  }

  lemma GoodsKnown(w: World, h: History, e: Event)
    requires Known(w, h) && Enabled(w, e)
    ensures forall g :: g in DbAfter(w, e).goods ==>
              g in Published(h.terms, e) && SameTerms(DbAfter(w, e).goods[g], Published(h.terms, e)[g])
  {
  }

  lemma MembersKnown(w: World, h: History, e: Event)
    requires Known(w, h) && CarriedOk(w, h, e) && Enabled(w, e)
    ensures forall p :: p in RedisAfter(w, e).members ==>
              p.good in Published(h.terms, e) && p.user < NextIdAfter(w, e)
  {
    if e.RunGrabScript? {
      assert TaskOk(w, h, Locked(e.p, e.token));
    }
  }

  lemma StockKnown(w: World, h: History, e: Event)
    requires Known(w, h) && Guard(w, e)
    ensures forall g :: g in Published(h.terms, e) ==> g < NextIdAfter(w, e) && g in RedisAfter(w, e).stock
  {
    MissingUsersStay(w, e);
    forall g | g in h.terms ensures g in RedisAfter(w, e).stock {
      StockKeysGrow(w, e, g);
    }
  }

  lemma KnownKept(w: World, h: History, e: Event)
    requires Known(w, h) && CarriedOk(w, h, e) && Enabled(w, e)
    ensures Known(Apply(w, e), Record(h, w, e))
  {
    MembersGrow(w, h, e);
    OrdersKnown(w, h, e);
    GoodsKnown(w, h, e);
    MembersKnown(w, h, e);
    StockKnown(w, h, e);
    UsersKnown(w, h, e);
  }

  lemma UsersKnown(w: World, h: History, e: Event)
    requires Known(w, h) && Enabled(w, e)
    ensures forall u :: u in UsersAfter(w, e) ==> u < NextIdAfter(w, e)
  {
  }

  // ---- Tasks -----------------------------------------------------------------------------

  /** A due close task belongs to an order at least 30 minutes old: whole-second
      truncation and the open interval only ever delay it. */
  lemma DueMeansOld(w: World, o: int)
    requires Times(w) && CloseDue(w.redis, o, w.now)
    ensures o in w.db.orders && w.now >= w.db.orders[o].createdAt + ORDER_CLOSE_DELAY
  {
    UnixGrows(w.now, w.db.orders[o].createdAt + ORDER_CLOSE_DELAY);
  }

  lemma NackStartedOk(w: World, h: History, p: Pair, o: int, t: Task)
    requires p in w.redis.members && t in Started(w, CommitCreate(p, o, false))
    ensures var e := CommitCreate(p, o, false); TaskOk(Apply(w, e), Record(h, w, e), t)
  {
  }

  lemma CreateStartedOk(w: World, h: History, p: Pair, o: int, t: Task)
    requires p in w.redis.members && HasOrder(T.CreateOrder(w.db, o, p, w.now), p)
    requires t in CreateFollowUp(w.db, o, p)
    ensures var e := CommitCreate(p, o, true); TaskOk(Apply(w, e), Record(h, w, e), t)
  {
  }

  lemma PayStartedOk(w: World, h: History, o: int, u: int, t: Task)
    requires T.CanPay(w.db, o, u) && t in Started(w, CommitPay(o, u, true))
    ensures var e := CommitPay(o, u, true); TaskOk(Apply(w, e), Record(h, w, e), t)
  {
  }

  lemma CancelStartedOk(w: World, h: History, o: int, u: int, t: Task)
    requires T.CanCancel(w.db, o, u) && t in Started(w, CommitCancel(o, u, true))
    ensures var e := CommitCancel(o, u, true); TaskOk(Apply(w, e), Record(h, w, e), t)
  {
  }

  lemma CloseStartedOk(w: World, h: History, o: int, t: Task)
    requires o in w.db.orders && t in Started(w, CommitClose(o, true))
    ensures var e := CommitClose(o, true); TaskOk(Apply(w, e), Record(h, w, e), t)
  {
  }

  lemma JudgeStartedOk(w: World, h: History, e: Event, t: Task)
    requires (e.CommitFailed? || e.CommitSucceeded?) && t in Started(w, e)
    ensures TaskOk(Apply(w, e), Record(h, w, e), t)
  {
  }

  predicate Commits(e: Event)
  {
    e.CommitCreate? || e.CommitPay? || e.CommitCancel? || e.CommitClose? || e.CommitFailed? || e.CommitSucceeded?
  }

  lemma CommitStartedOk(w: World, h: History, e: Event, t: Task)
    requires T.DbInv(w.db) && Known(w, h) && CarriedOk(w, h, e) && Enabled(w, e) && t in Started(w, e)
    requires Commits(e)
    ensures TaskOk(Apply(w, e), Record(h, w, e), t)
  {
    match e
    case CommitCreate(p, o, seen) =>
      assert TaskOk(w, h, InsertOrder(p));
      T.CreateLeavesOrder(w.db, o, p, w.now);
      if seen {
        CreateStartedOk(w, h, p, o, t);
      } else {
        NackStartedOk(w, h, p, o, t);
      }
    case CommitPay(o, u, _) => PayStartedOk(w, h, o, u, t);
    case CommitCancel(o, u, _) => CancelStartedOk(w, h, o, u, t);
    case CommitClose(o, _) =>
      assert TaskOk(w, h, Close(o));
      CloseStartedOk(w, h, o, t);
    case _ => JudgeStartedOk(w, h, e, t);
  }

  /** What an operation without a transaction starts is justified by the state it found. */
  lemma FollowingStartedOk(w: World, h: History, e: Event, t: Task)
    requires CarriedOk(w, h, e) && t in Started(w, e)
    requires e.FindGood? || e.FindUser? || e.RemoveMark? || e.Republish? || e.Expand?
    ensures TaskOk(w, h, t)
  {
    match e
    case FindGood(p) => assert TaskOk(w, h, ReadGood(p));
    case FindUser(p) => assert TaskOk(w, h, ReadUser(p));
    case RemoveMark(p, _) => assert TaskOk(w, h, ClearPending(p));
    case Republish(p, _, _) => assert TaskOk(w, h, Resend(p));
    case Expand(g, c) => assert TaskOk(w, h, TellMembers(g, c));
  }

  lemma FirstStartedOk(w: World, h: History, e: Event, t: Task)
    requires Known(w, h) && QueuesOk(w, h) && Guard(w, e) && t in Started(w, e)
    requires Carried(e) == {} && !e.ListClose?
    ensures TaskOk(w, h, t)
  {
  }

  lemma CloseListedOk(w: World, h: History, o: int, t: Task)
    requires Times(w) && Guard(w, ListClose(o)) && t in Started(w, ListClose(o))
    ensures TaskOk(w, h, t)
  {
    DueMeansOld(w, o);
  }

  lemma GrabStartedOk(w: World, h: History, e: Event, t: Task)
    requires Known(w, h) && CarriedOk(w, h, e) && Enabled(w, e) && t in Started(w, e)
    requires e.FindBuyer? || e.AcquireLock? || e.RunGrabScript?
    ensures TaskOk(Apply(w, e), Record(h, w, e), t)
  {
    match e
    case FindBuyer(p) => assert TaskOk(w, h, ReadBuyer(p));
    case AcquireLock(p, token, _) => assert TaskOk(w, h, TryLock(p));
    case RunGrabScript(p, token, _, _) => assert TaskOk(w, h, Locked(p, token));
  }

  lemma TasksKept(w: World, h: History, e: Event)
    requires T.DbInv(w.db) && Known(w, h) && QueuesOk(w, h) && Times(w) && TasksOk(w, h)
    requires Enabled(w, e)
    ensures TasksOk(Apply(w, e), Record(h, w, e))
  {
    var w', h' := Apply(w, e), Record(h, w, e);
    StepGrows(w, h, e);
    CarriedIsOk(w, h, e);
    forall t | t in w'.tasks ensures TaskOk(w', h', t) {
      if t in w.tasks {
        TaskStaysOk(w, h, w', h', t);
      } else if Commits(e) {
        CommitStartedOk(w, h, e, t);
      } else if e.FindBuyer? || e.AcquireLock? || e.RunGrabScript? {
        GrabStartedOk(w, h, e, t);
      } else {
        if e.ListClose? {
          CloseListedOk(w, h, e.order, t);
        } else if Carried(e) == {} {
          FirstStartedOk(w, h, e, t);
        } else {
          FollowingStartedOk(w, h, e, t);
        }
        TaskStaysOk(w, h, w', h', t);
      }
    }
  }

  // ---- Queues, marks -----------------------------------------------------------------------

  /** Tasks that stand for a pre-deducted participation. */
  predicate Speaks(t: Task, p: Pair)
  {
    t == SendGrab(p) || t == ReadGood(p) || t == ReadUser(p) || t == InsertOrder(p) ||
    t == ClearPending(p) || t == AckMessage(p) || t == NackMessage(p) || t == Resend(p) || t == Renew(p)
  }

  lemma SpeakersAreMembers(w: World, h: History, t: Task, p: Pair)
    requires TaskOk(w, h, t) && Speaks(t, p)
    ensures p in w.redis.members
  {
  }

  lemma NewMessage(w: World, e: Event, p: Pair)
    requires Guard(w, e) && p in QueueAfter(w, e) && p !in w.queue
    ensures exists t :: t in Carried(e) && Speaks(t, p)
  {
    match e
    case Crash(t) => assert t in Carried(e) && Speaks(t, p);
    case PublishGrab(q, _) => assert SendGrab(q) in Carried(e) && Speaks(SendGrab(q), p);
    case Republish(q, _, _) => assert Resend(q) in Carried(e) && Speaks(Resend(q), p);
    case _ =>
  }

  lemma QueueKept(w: World, h: History, e: Event, p: Pair)
    requires CarriedOk(w, h, e) && Guard(w, e) && p in QueueAfter(w, e) && p !in w.queue
    ensures p in w.redis.members
  {
    NewMessage(w, e, p);
    var t :| t in Carried(e) && Speaks(t, p);
    SpeakersAreMembers(w, h, t, p);
  }

  lemma NewMark(w: World, e: Event, p: Pair)
    requires p in RedisAfter(w, e).pending
    ensures p in w.redis.pending || Renew(p) in Carried(e) || p in RedisAfter(w, e).members
  {
  }

  lemma NewMail(w: World, e: Event, n: Notice)
    requires Guard(w, e) && (n in MailAfter(w, e) || OweNotice(n) in OwedAfter(w, e))
    ensures n in w.mail || OweNotice(n) in w.owed || Tell(n) in Carried(e)
  {
  }

  lemma InboxKept(w: World, h: History, e: Event, i: int)
    requires QueuesOk(w, h) && Guard(w, e) && i in InboxAfter(w, e)
    ensures i < NextIdAfter(w, e) && Justified(h, InboxAfter(w, e)[i])
  {
  }

  lemma NewDebt(w: World, e: Event, o: int)
    requires Guard(w, e) && OweClose(o) in OwedAfter(w, e)
    ensures OweClose(o) in w.owed || EnqueueClose(o) in Carried(e)
  {
  }

  lemma OwedKept(w: World, h: History, e: Event, o: int)
    requires QueuesOk(w, h) && CarriedOk(w, h, e) && Guard(w, e)
    requires OweClose(o) in OwedAfter(w, e)
    ensures o in w.db.orders
  {
    NewDebt(w, e, o);
    assert EnqueueClose(o) in Carried(e) ==> TaskOk(w, h, EnqueueClose(o));
  }

  lemma NoticeKept(w: World, h: History, e: Event, n: Notice)
    requires QueuesOk(w, h) && CarriedOk(w, h, e) && Guard(w, e)
    requires n in MailAfter(w, e) || OweNotice(n) in OwedAfter(w, e)
    ensures Justified(Record(h, w, e), n)
  {
    NewMail(w, e, n);
    assert Tell(n) in Carried(e) ==> TaskOk(w, h, Tell(n));
    StaysJustified(h, Record(h, w, e), n);
  }

  lemma InboxesKept(w: World, h: History, e: Event)
    requires QueuesOk(w, h) && Guard(w, e)
    ensures forall i :: i in InboxAfter(w, e) ==>
              i < NextIdAfter(w, e) && Justified(Record(h, w, e), InboxAfter(w, e)[i])
  {
    forall i | i in InboxAfter(w, e) ensures i < NextIdAfter(w, e) && Justified(Record(h, w, e), InboxAfter(w, e)[i]) {
      InboxKept(w, h, e, i);
      StaysJustified(h, Record(h, w, e), InboxAfter(w, e)[i]);
    }
  }

  lemma QueuesKept(w: World, h: History, e: Event)
    requires Known(w, h) && QueuesOk(w, h) && CarriedOk(w, h, e) && Guard(w, e)
    ensures QueuesOk(Apply(w, e), Record(h, w, e))
  {
    OrdersGrowInStep(w, e);
    MembersGrow(w, h, e);
    InboxesKept(w, h, e);
    forall p | p in QueueAfter(w, e) ensures p in w.redis.members {
      if p !in w.queue {
        QueueKept(w, h, e, p);
      }
    }
    forall p | p in RedisAfter(w, e).pending ensures p in RedisAfter(w, e).members {
      NewMark(w, e, p);
      assert Renew(p) in Carried(e) ==> TaskOk(w, h, Renew(p));
    }
    forall n | n in MailAfter(w, e) || OweNotice(n) in OwedAfter(w, e) ensures Justified(Record(h, w, e), n) {
      NoticeKept(w, h, e, n);
    }
    forall o | OweClose(o) in OwedAfter(w, e) ensures o in w.db.orders {
      OwedKept(w, h, e, o);
    }
  }

  /** Only a settled participation loses its pending mark. */
  lemma MarkKept(w: World, h: History, e: Event, p: Pair)
    requires CarriedOk(w, h, e) && Enabled(w, e) && p in w.redis.pending && !Settled(w, p)
    ensures p in RedisAfter(w, e).pending
  {
    if e.RemoveMark? {
      assert TaskOk(w, h, ClearPending(e.p));
    }
  }

  lemma NewMemberHasMark(w: World, e: Event, p: Pair)
    requires p in RedisAfter(w, e).members && p !in w.redis.members
    ensures p in RedisAfter(w, e).pending
  {
  }

  lemma NoGrabLostKept(w: World, h: History, e: Event)
    requires Known(w, h) && NoGrabLost(w) && CarriedOk(w, h, e) && Enabled(w, e)
    ensures NoGrabLost(Apply(w, e))
  {
    var w', h' := Apply(w, e), Record(h, w, e);
    StepGrows(w, h, e);
    forall p | p in w'.redis.members ensures p in w'.redis.pending || Settled(w', p) {
      if p !in w.redis.members {
        NewMemberHasMark(w, e, p);
      } else if Settled(w, p) {
        StaysSettled(w, h, w', h', p);
      } else {
        MarkKept(w, h, e, p);
      }
    }
  }

  // ---- Slots -----------------------------------------------------------------------------------

  /** A return task starts only where a transaction takes the order out of pending_pay. */
  lemma ReturnStarts(w: World, e: Event, o: int)
    requires ReturnSlot(o) in Started(w, e)
    ensures !IsDead(w.db, o) && IsDead(DbAfter(w, e), o)
  {
  }

  lemma ReturnReported(w: World, e: Event, o: int)
    requires SlotReturned(o) in Facts(w, e)
    ensures e == IncrStock(o)
  {
  }

  lemma DeadStaysDead(w: World, e: Event, o: int)
    ensures IsDead(w.db, o) ==> IsDead(DbAfter(w, e), o)
  {
    OrdersGrowInStep(w, e);
  }

  lemma ReturnKept(w: World, h: History, e: Event, o: int)
    requires w.tasks[ReturnSlot(o)] + h.facts[SlotReturned(o)] <= Bit(IsDead(w.db, o))
    requires IsDead(w.db, o) ==> IsDead(DbAfter(w, e), o)
    requires Enabled(w, e)
    ensures (w.tasks - multiset(Carried(e)) + multiset(Started(w, e)))[ReturnSlot(o)] +
            (h.facts + multiset(Facts(w, e)))[SlotReturned(o)] <= Bit(IsDead(DbAfter(w, e), o))
  {
    if ReturnSlot(o) in Started(w, e) {
      ReturnStarts(w, e, o);
    }
    if SlotReturned(o) in Facts(w, e) {
      ReturnReported(w, e, o);
    }
  }

  lemma ReturnsKept(w: World, h: History, e: Event)
    requires ReturnsOnce(w, h) && Enabled(w, e)
    ensures ReturnsOnce(Apply(w, e), Record(h, w, e))
  {
    forall o
      ensures Apply(w, e).tasks[ReturnSlot(o)] + Record(h, w, e).facts[SlotReturned(o)] <= Bit(IsDead(DbAfter(w, e), o))
    {
      DeadStaysDead(w, e, o);
      ReturnKept(w, h, e, o);
    }
  }

  // ---- Outcomes and elections ------------------------------------------------------------------

  lemma OutcomeKept(w: World, h: History, e: Event, o: int)
    requires OutcomeOf(w.db, h.facts, o)
    ensures OutcomeOf(DbAfter(w, e), h.facts + multiset(Facts(w, e)), o)
  {
  }

  lemma OneOutcomeKept(w: World, h: History, e: Event)
    requires OneOutcome(w, h) && Enabled(w, e)
    ensures OneOutcome(Apply(w, e), Record(h, w, e))
  {
    forall o {
      OutcomeKept(w, h, e, o);
    }
  }

  lemma ElectionKeptByCreate(w: World, h: History, e: Event, g: int)
    requires ElectionOf(w.db, w.nextId, h.facts, g) && e.CommitCreate? && Guard(w, e) && e.p.good < w.nextId
    ensures ElectionOf(DbAfter(w, e), NextIdAfter(w, e), h.facts + multiset(Facts(w, e)), g)
  {
    var facts' := h.facts + multiset(Facts(w, e));
    assert facts'[Elected(g)] == h.facts[Elected(g)] + Bit(g == e.p.good && BecomesSucceeded(w.db, e.order, e.p));
    assert facts'[Filled(g)] == h.facts[Filled(g)] + Bit(g == e.p.good && BecomesFull(w.db, e.order, e.p));
  }

  lemma ElectionKeptByJudge(w: World, h: History, e: Event, g: int)
    requires ElectionOf(w.db, w.nextId, h.facts, g) && (e.CommitFailed? || e.CommitSucceeded?)
    requires g in w.db.goods ==> g < w.nextId
    requires e.CommitSucceeded? ==> !T.CanSucceedLate(w.db, e.good, w.now)
    ensures ElectionOf(DbAfter(w, e), NextIdAfter(w, e), h.facts + multiset(Facts(w, e)), g)
  {
  }

  lemma ElectionKeptOtherwise(w: World, h: History, e: Event, g: int)
    requires ElectionOf(w.db, w.nextId, h.facts, g) && Guard(w, e)
    requires !e.CommitCreate? && !e.CommitFailed? && !e.CommitSucceeded?
    ensures ElectionOf(DbAfter(w, e), NextIdAfter(w, e), h.facts + multiset(Facts(w, e)), g)
  {
  }

  lemma ElectionsKept(w: World, h: History, e: Event)
    requires T.DbInv(w.db) && Known(w, h) && Elections(w, h) && CarriedOk(w, h, e) && Enabled(w, e)
    ensures Elections(Apply(w, e), Record(h, w, e))
  {
    if e.CommitCreate? {
      assert TaskOk(w, h, InsertOrder(e.p));
    }
    if e.CommitSucceeded? {
      T.JudgeKeepsInv(w.db, e.good, w.now);
    }
    forall g ensures ElectionOf(DbAfter(w, e), NextIdAfter(w, e), h.facts + multiset(Facts(w, e)), g) {
      if e.CommitCreate? {
        ElectionKeptByCreate(w, h, e, g);
      } else if e.CommitFailed? || e.CommitSucceeded? {
        ElectionKeptByJudge(w, h, e, g);
      } else {
        ElectionKeptOtherwise(w, h, e, g);
      }
    }
  }

  // ---- Times, notices ------------------------------------------------------------------------------

  lemma NewCloseEntry(w: World, e: Event, o: int)
    requires Guard(w, e) && o in RedisAfter(w, e).closeAt
    ensures (o in w.redis.closeAt && RedisAfter(w, e).closeAt[o] == w.redis.closeAt[o]) ||
            (RedisAfter(w, e).closeAt[o] == Unix(w.now + ORDER_CLOSE_DELAY) &&
             (EnqueueClose(o) in Carried(e) || OweClose(o) in w.owed))
  {
  }

  lemma CloseTimesKept(w: World, h: History, e: Event, o: int)
    requires Times(w) && QueuesOk(w, h) && CarriedOk(w, h, e) && Guard(w, e)
    requires o in RedisAfter(w, e).closeAt
    ensures o in DbAfter(w, e).orders
    ensures RedisAfter(w, e).closeAt[o] >= Unix(DbAfter(w, e).orders[o].createdAt + ORDER_CLOSE_DELAY)
  {
    OrdersGrowInStep(w, e);
    NewCloseEntry(w, e, o);
    assert EnqueueClose(o) in Carried(e) ==> TaskOk(w, h, EnqueueClose(o));
    UnixGrows(w.db.orders[o].createdAt + ORDER_CLOSE_DELAY, w.now + ORDER_CLOSE_DELAY);
  }

  lemma OrderTimesKept(w: World, e: Event, o: int)
    requires o in w.db.orders ==> TimesOf(w.db.orders[o], w.now)
    requires e.CommitClose? && e.order == o ==>
               o in w.db.orders && w.now >= w.db.orders[o].createdAt + ORDER_CLOSE_DELAY
    requires Guard(w, e) && o in DbAfter(w, e).orders
    ensures TimesOf(DbAfter(w, e).orders[o], if e.Tick? then e.time else w.now)
  {
  }

  lemma OrdersTimesKept(w: World, h: History, e: Event)
    requires Times(w) && CarriedOk(w, h, e) && Guard(w, e)
    ensures forall o :: o in DbAfter(w, e).orders ==>
              TimesOf(DbAfter(w, e).orders[o], if e.Tick? then e.time else w.now)
  {
    if e.CommitClose? {
      assert TaskOk(w, h, Close(e.order));
    }
    forall o | o in DbAfter(w, e).orders ensures TimesOf(DbAfter(w, e).orders[o], if e.Tick? then e.time else w.now) {
      OrderTimesKept(w, e, o);
    }
  }

  lemma TimesKept(w: World, h: History, e: Event)
    requires Times(w) && QueuesOk(w, h) && CarriedOk(w, h, e) && Guard(w, e)
    ensures Times(Apply(w, e))
  {
    OrdersTimesKept(w, h, e);
    forall o | o in RedisAfter(w, e).closeAt
      ensures o in DbAfter(w, e).orders &&
              RedisAfter(w, e).closeAt[o] >= Unix(DbAfter(w, e).orders[o].createdAt + ORDER_CLOSE_DELAY)
    {
      CloseTimesKept(w, h, e, o);
    }
  }

  lemma OneNoticeKept(w: World, h: History, e: Event)
    requires OneNoticeEach(w) && QueuesOk(w, h) && Enabled(w, e)
    ensures OneNoticeEach(Apply(w, e))
  {
    if e.Store? && e.n !in w.inbox.Values {
      forall i | i in w.inbox ensures w.inbox[i] != e.n {
        assert w.inbox[i] in w.inbox.Values;
      }
    }
  }

  // ---- Slot conservation ---------------------------------------------------------------------------

  predicate MovesSlots(e: Event)
  {
    e.OpenGood? || (e.RunGrabScript? && e.done) || e.CommitCreate? || e.IncrStock?
  }

  /** Pay, cancel, close, judge, marks, queues and locks leave the slot account alone. */
  lemma OthersKeepKeys(w: World, e: Event)
    requires !MovesSlots(e)
    ensures T.SameKeys(w.db, DbAfter(w, e))
    ensures forall o :: SlotReturned(o) !in Facts(w, e)
  {
  }

  lemma OthersMoveNoSlot(w: World, e: Event, g: int)
    requires !MovesSlots(e)
    ensures RedisAfter(w, e).members == w.redis.members
    ensures Stock(RedisAfter(w, e), g) == Stock(w.redis, g)
  {
  }

  lemma QuietKeepsAccount(w: World, h: History, e: Event, g: int, max: int)
    requires !MovesSlots(e) && ConservedAt(w.redis, w.db, h.facts, g, max)
    ensures ConservedAt(RedisAfter(w, e), DbAfter(w, e), h.facts + multiset(Facts(w, e)), g, max)
  {
    OthersKeepKeys(w, e);
    OthersMoveNoSlot(w, e, g);
    var db', facts' := DbAfter(w, e), h.facts + multiset(Facts(w, e));
    forall p ensures HasOrder(w.db, p) <==> HasOrder(db', p) {
      T.SameKeysSameOrders(w.db, db', p);
    }
    assert T.Waiting(w.redis.members, db', g) == T.Waiting(w.redis.members, w.db, g);
    assert Unreturned(db', facts', g) == Unreturned(w.db, h.facts, g) by {
      forall o | o in w.db.orders ensures db'.orders[o].good == w.db.orders[o].good {
        assert w.db.orders[o].Key() == db'.orders[o].Key();
      }
    }
  }

  /** Pre-deduct: one slot moves from the stock to a waiting member. */
  lemma GrabKeepsAccount(w: World, facts: multiset<Fact>, p: Pair, g: int, max: int)
    requires ConservedAt(w.redis, w.db, facts, g, max) && (HasOrder(w.db, p) ==> p in w.redis.members)
    ensures ConservedAt(Grab(w.redis, p, w.now), w.db, facts, g, max)
  {
    var r' := Grab(w.redis, p, w.now);
    if GrabReplyOf(w.redis, p) == GrabOk {
      assert T.Waiting(r'.members, w.db, g) ==
             T.Waiting(w.redis.members, w.db, g) + (if g == p.good then {p} else {});
    } else {
      assert r'.members == w.redis.members;
    }
  }

  lemma CreateAddsUnreturned(db: Db, facts: multiset<Fact>, o: int, p: Pair, now: int, g: int)
    requires !T.Conflicts(db, o, p) && facts[SlotReturned(o)] == 0
    ensures Unreturned(T.CreateOrder(db, o, p, now), facts, g) ==
            Unreturned(db, facts, g) + (if g == p.good then {o} else {})
    ensures o !in Unreturned(db, facts, g)
  {
  }

  /** Create: one slot moves from a waiting member to an order. */
  lemma CreateKeepsAccount(w: World, facts: multiset<Fact>, p: Pair, o: int, g: int, max: int)
    requires ConservedAt(w.redis, w.db, facts, g, max) && facts[SlotReturned(o)] == 0
    requires p in w.redis.members && !T.Conflicts(w.db, o, p)
    ensures ConservedAt(w.redis, T.CreateOrder(w.db, o, p, w.now), facts, g, max)
  {
    T.CreateEndsWaiting(w.redis.members, w.db, o, p, w.now, g);
    CreateAddsUnreturned(w.db, facts, o, p, w.now, g);
  }

  /** Release: one slot moves from a dead order back to the stock. */
  lemma ReleaseKeepsAccount(w: World, facts: multiset<Fact>, o: int, g: int, max: int)
    requires ConservedAt(w.redis, w.db, facts, g, max) && g in w.redis.stock
    requires o in w.db.orders && facts[SlotReturned(o)] == 0
    ensures ConservedAt(ReleaseSlot(w.redis, GoodOf(w, o)), w.db, facts + multiset{SlotReturned(o)}, g, max)
  {
    var facts' := facts + multiset{SlotReturned(o)};
    assert Unreturned(w.db, facts', g) == Unreturned(w.db, facts, g) - (if w.db.orders[o].good == g then {o} else {});
    assert w.db.orders[o].good == g ==> o in Unreturned(w.db, facts, g);
  }

  /** A fresh good starts with all slots in the stock. */
  lemma OpenKeepsAccount(w: World, h: History, good: int, row: GroupBuy, g: int)
    requires Known(w, h) && w.nextId <= good && row.max >= 0
    requires g == good || (g in h.terms && ConservedAt(w.redis, w.db, h.facts, g, h.terms[g].max))
    ensures ConservedAt(OpenStock(w.redis, good, row.max), w.db.(goods := w.db.goods[good := row]), h.facts, g,
                        if g == good then row.max else h.terms[g].max)
  {
    var db' := w.db.(goods := w.db.goods[good := row]);
    assert OpenStock(w.redis, good, row.max).members == w.redis.members;
    forall p ensures HasOrder(w.db, p) <==> HasOrder(db', p) {
      T.SameKeysSameOrders(w.db, db', p);
    }
    assert T.Waiting(w.redis.members, db', g) == T.Waiting(w.redis.members, w.db, g);
    assert Unreturned(db', h.facts, g) == Unreturned(w.db, h.facts, g);
    if g == good {
      assert T.Waiting(w.redis.members, w.db, g) == {};
      assert Unreturned(w.db, h.facts, g) == {} by {
        forall o | o in w.db.orders ensures w.db.orders[o].good != g {
          assert w.db.orders[o].Key() in w.redis.members;
        }
      }
    }
  }

  lemma OtherFactsKeepAccount(r: Redis, db: Db, facts: multiset<Fact>, more: set<Fact>, g: int, max: int)
    requires ConservedAt(r, db, facts, g, max) && forall o :: SlotReturned(o) !in more
    ensures ConservedAt(r, db, facts + multiset(more), g, max)
  {
    assert Unreturned(db, facts + multiset(more), g) == Unreturned(db, facts, g);
  }

  ghost predicate AccountAfter(w: World, h: History, e: Event, g: int, max: int)
  {
    ConservedAt(RedisAfter(w, e), DbAfter(w, e), h.facts + multiset(Facts(w, e)), g, max)
  }

  lemma CommittedCreateKeepsAccount(w: World, h: History, e: Event, g: int, max: int)
    requires ConservedAt(w.redis, w.db, h.facts, g, max)
    requires e.CommitCreate? && e.p in w.redis.members && h.facts[SlotReturned(e.order)] == 0
    ensures AccountAfter(w, h, e, g, max)
  {
    if !T.Conflicts(w.db, e.order, e.p) {
      CreateKeepsAccount(w, h.facts, e.p, e.order, g, max);
    }
    OtherFactsKeepAccount(w.redis, DbAfter(w, e), h.facts, Facts(w, e), g, max);
  }

  lemma AccountKept(w: World, h: History, e: Event, g: int, max: int)
    requires ConservedAt(w.redis, w.db, h.facts, g, max) && g in w.redis.stock && !e.OpenGood?
    requires e.RunGrabScript? ==> (HasOrder(w.db, e.p) ==> e.p in w.redis.members)
    requires e.CommitCreate? ==> e.p in w.redis.members && h.facts[SlotReturned(e.order)] == 0
    requires e.IncrStock? ==> e.order in w.db.orders && h.facts[SlotReturned(e.order)] == 0
    ensures AccountAfter(w, h, e, g, max)
  {
    if e.RunGrabScript? && e.done {
      GrabKeepsAccount(w, h.facts, e.p, g, max);
      OtherFactsKeepAccount(RedisAfter(w, e), w.db, h.facts, Facts(w, e), g, max);
    } else if e.CommitCreate? {
      CommittedCreateKeepsAccount(w, h, e, g, max);
    } else if e.IncrStock? {
      ReleaseKeepsAccount(w, h.facts, e.order, g, max);
      assert multiset(Facts(w, e)) == multiset{SlotReturned(e.order)};
    } else {
      QuietKeepsAccount(w, h, e, g, max);
    }
  }

  lemma NoReturnYet(w: World, h: History, o: int)
    requires ReturnsOnce(w, h) && (o !in w.db.orders || ReturnSlot(o) in w.tasks)
    ensures h.facts[SlotReturned(o)] == 0
  {
    assert w.tasks[ReturnSlot(o)] + h.facts[SlotReturned(o)] <= Bit(IsDead(w.db, o));
  }

  lemma MemberOfOrder(w: World, h: History, p: Pair)
    requires Known(w, h) && HasOrder(w.db, p)
    ensures p in w.redis.members
  {
  }

  lemma ConservedKept(w: World, h: History, e: Event)
    requires Known(w, h) && ReturnsOnce(w, h) && Conserved(w, h)
    requires CarriedOk(w, h, e) && Enabled(w, e)
    ensures Conserved(Apply(w, e), Record(h, w, e))
  {
    if e.OpenGood? {
      forall g | g in h.terms || g == e.good
        ensures ConservedAt(RedisAfter(w, e), DbAfter(w, e), h.facts + multiset(Facts(w, e)), g,
                            Published(h.terms, e)[g].max)
      {
        OpenKeepsAccount(w, h, e.good, e.row, g);
        OtherFactsKeepAccount(RedisAfter(w, e), DbAfter(w, e), h.facts, Facts(w, e), g, Published(h.terms, e)[g].max);
      }
    } else {
      AccountInputs(w, h, e);
      forall g | g in h.terms ensures AccountAfter(w, h, e, g, h.terms[g].max) {
        AccountKept(w, h, e, g, h.terms[g].max);
      }
    }
  }

  lemma AccountInputs(w: World, h: History, e: Event)
    requires Known(w, h) && ReturnsOnce(w, h) && CarriedOk(w, h, e) && Enabled(w, e)
    ensures e.RunGrabScript? ==> (HasOrder(w.db, e.p) ==> e.p in w.redis.members)
    ensures e.CommitCreate? ==> e.p in w.redis.members && h.facts[SlotReturned(e.order)] == 0
    ensures e.IncrStock? ==> e.order in w.db.orders && h.facts[SlotReturned(e.order)] == 0
  {
    match e
    case RunGrabScript(p, _, _, _) =>
      if HasOrder(w.db, p) {
        MemberOfOrder(w, h, p);
      }
    case CommitCreate(p, o, _) =>
      assert TaskOk(w, h, InsertOrder(p));
      NoReturnYet(w, h, o);
    case IncrStock(o) =>
      assert TaskOk(w, h, ReturnSlot(o));
      NoReturnYet(w, h, o);
    case _ =>
  }
}
