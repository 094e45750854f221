/**
 What holds in every run of the protocol: any interleaving of requests,
 consumers, scanners and judges, with lost, duplicated and reordered messages,
 failing or unanswered store operations, expiring locks and crashes.
 */
module Safety {
  import opened Model
  import opened RedisKeys
  import opened Protocol
  import opened Invariants
  import Sets
  import T = OrderTables

  // ---- Induction over runs ---------------------------------------------------------

  lemma StepKeepsInv(w: World, h: History, e: Event, w': World, h': History)
    requires Inv(w, h) && Takes(w, h, e, w', h')
    ensures Inv(w', h')
  {
    Taken(w, h, e, w', h');
    CarriedIsOk(w, h, e);
    DbKept(w, h, e);
    KnownKept(w, h, e);
    TasksKept(w, h, e);
    QueuesKept(w, h, e);
    NoGrabLostKept(w, h, e);
    ReturnsKept(w, h, e);
    ConservedKept(w, h, e);
    OneOutcomeKept(w, h, e);
    ElectionsKept(w, h, e);
    TimesKept(w, h, e);
    OneNoticeKept(w, h, e);
  }

  lemma InitialInv(w: World)
    requires Initial(w)
    ensures Inv(w, History(multiset{}, map[]))
  {
  }

  lemma {:induction false} RunsKeepInv(r: Run)
    requires Valid(r)
    ensures Inv(Now(r), Log(r))
  {
    match r
    case Begin(w) => InitialInv(w);
    case Then(before, e, now, log) =>
      RunsKeepInv(before);
      StepKeepsInv(Now(before), Log(before), e, now, log);
  }

  // ---- Slots --------------------------------------------------------------------------

  ghost function DeadOrders(db: Db, g: int): set<int>
  {
    set o | o in db.orders && db.orders[o].good == g && !db.orders[o].IsLive()
  }

  /** Orders of a good whose cancel or close has been followed by an INCR of the stock. */
  ghost function ReturnedOrders(db: Db, facts: multiset<Fact>, g: int): set<int>
  {
    set o | o in db.orders && db.orders[o].good == g && facts[SlotReturned(o)] > 0
  }

  lemma SplitUnreturned(w: World, h: History, g: int)
    requires ReturnsOnce(w, h)
    ensures |Unreturned(w.db, h.facts, g)| ==
            |LiveOrders(w.db, g)| + |DeadOrders(w.db, g)| - |ReturnedOrders(w.db, h.facts, g)|
    ensures ReturnedOrders(w.db, h.facts, g) <= DeadOrders(w.db, g)
    ensures LiveOrders(w.db, g) <= Unreturned(w.db, h.facts, g)
  {
    var live, dead := LiveOrders(w.db, g), DeadOrders(w.db, g);
    var back, kept := ReturnedOrders(w.db, h.facts, g), Unreturned(w.db, h.facts, g);
    forall o | o in w.db.orders && w.db.orders[o].IsLive() ensures h.facts[SlotReturned(o)] == 0 {
      assert w.tasks[ReturnSlot(o)] + h.facts[SlotReturned(o)] <= Bit(IsDead(w.db, o));
    }
    assert live + dead == back + kept;
    assert |live + dead| == |live| + |dead|;
    assert |back + kept| == |back| + |kept|;
  }

  /** Every slot of a published good is in exactly one place: the Redis stock, a
      member still waiting for an order, a live order, or a dead order whose slot
      was never given back. */
  lemma SlotConservation(r: Run, g: int)
    requires Valid(r) && g in Log(r).terms
    ensures var now, h := Now(r), Log(r);
            Stock(now.redis, g) + |T.Waiting(now.redis.members, now.db, g)| + |LiveOrders(now.db, g)| +
            (|DeadOrders(now.db, g)| - |ReturnedOrders(now.db, h.facts, g)|) == h.terms[g].max
  {
    RunsKeepInv(r);
    var now, h := Now(r), Log(r);
    assert ConservedAt(now.redis, now.db, h.facts, g, h.terms[g].max);
    SplitUnreturned(now, h, g);
  }

  lemma WithinMax(w: World, h: History, g: int)
    requires Conserved(w, h) && ReturnsOnce(w, h) && g in h.terms
    ensures |LiveOrders(w.db, g)| <= h.terms[g].max && 0 <= Stock(w.redis, g) <= h.terms[g].max
  {
    assert ConservedAt(w.redis, w.db, h.facts, g, h.terms[g].max);
    SplitUnreturned(w, h, g);
    Sets.SubsetSize(LiveOrders(w.db, g), Unreturned(w.db, h.facts, g));
  }

  /** Live orders never exceed the published maximum, and the stock stays in range. */
  lemma NoOversell(r: Run, g: int)
    requires Valid(r) && g in Log(r).terms
    ensures var now, max := Now(r), Log(r).terms[g].max;
            |LiveOrders(now.db, g)| <= max && 0 <= Stock(now.redis, g) <= max
    ensures g in Now(r).db.goods ==> Now(r).db.goods[g].current <= Now(r).db.goods[g].max
  {
    RunsKeepInv(r);
    WithinMax(Now(r), Log(r), g);
    if g in Now(r).db.goods {
      T.CounterAgreement(Now(r).db, g);
    }
  }

  /** stock = max - current_members holds exactly when no member waits for an order, every
      dead order's slot is back, and the counter has kept up with the live orders (which
      CounterAgreement gives for every good that has not failed). */
  lemma StockIsMaxMinusCurrent(r: Run, g: int)
    requires Valid(r) && g in Now(r).db.goods
    ensures var now, h := Now(r), Log(r);
            Stock(now.redis, g) == now.db.goods[g].max - now.db.goods[g].current <==>
            (&& T.Waiting(now.redis.members, now.db, g) == {}
             && DeadOrders(now.db, g) <= ReturnedOrders(now.db, h.facts, g)
             && now.db.goods[g].current == |LiveOrders(now.db, g)|)
  {
    RunsKeepInv(r);
    T.CounterAgreement(Now(r).db, g);
    ExactlyAllReturned(Now(r), Log(r), g);
  }

  lemma ExactlyAllReturned(w: World, h: History, g: int)
    requires Conserved(w, h) && ReturnsOnce(w, h) && Known(w, h) && g in w.db.goods
    requires w.db.goods[g].current <= |LiveOrders(w.db, g)|
    ensures Stock(w.redis, g) == w.db.goods[g].max - w.db.goods[g].current <==>
            (&& T.Waiting(w.redis.members, w.db, g) == {}
             && DeadOrders(w.db, g) <= ReturnedOrders(w.db, h.facts, g)
             && w.db.goods[g].current == |LiveOrders(w.db, g)|)
  {
    assert ConservedAt(w.redis, w.db, h.facts, g, h.terms[g].max);
    SplitUnreturned(w, h, g);
    var dead, back := DeadOrders(w.db, g), ReturnedOrders(w.db, h.facts, g);
    assert |dead| == |back| + |dead - back| by {
      assert dead == back + (dead - back);
    }
    assert dead <= back <==> dead - back == {};
  }

  /** What the checks and the lock change, and that they lead to the script. */
  lemma ChecksLeadToScript(w: World, p: Pair)
    requires MayGrab(w, p) && p.user in w.users && p.good !in w.redis.locks
    ensures var looked := Apply(w, CheckGrab(p));
            var found := Apply(looked, FindBuyer(p));
            && Enabled(w, CheckGrab(p)) && Enabled(looked, FindBuyer(p))
            && found == w.(tasks := found.tasks) && TryLock(p) in found.tasks
  {
    var looked := Apply(w, CheckGrab(p));
    assert looked == w.(tasks := looked.tasks) && ReadBuyer(p) in looked.tasks;
  }

  lemma LockLeadsToScript(w: World, p: Pair, token: int)
    requires TryLock(p) in w.tasks && p.good !in w.redis.locks && w.nextId <= token
    ensures var locked := Apply(w, AcquireLock(p, token, true));
            && Enabled(w, AcquireLock(p, token, true))
            && locked == w.(redis := TakeLock(w.redis, p.good, token), tasks := locked.tasks, nextId := token + 1)
            && Locked(p, token) in locked.tasks
  {
  }

  lemma ScriptTakesSlot(w: World, p: Pair, token: int)
    requires Locked(p, token) in w.tasks && GrabReplyOf(w.redis, p) == GrabOk
    ensures var e := RunGrabScript(p, token, true, true);
            && Enabled(w, e) && SendGrab(p) in Apply(w, e).tasks
            && Apply(w, e) == w.(redis := Grab(w.redis, p, w.now), tasks := Apply(w, e).tasks)
  {
  }

  /** Whoever may grab can also get the slot, as long as there is one; and from then until
      the order is created the stock is ahead of the counter. */
  lemma SlotCanBeGrabbed(r: Run, p: Pair) returns (r': Run)
    requires Valid(r) && GoodIs(Now(r).db, p.good, Recruiting) && p.user in Now(r).users
    requires var row := Now(r).db.goods[p.good]; Now(r).now <= row.deadline && row.publisher != p.user
    requires p !in Now(r).redis.members && Stock(Now(r).redis, p.good) > 0 && p.good !in Now(r).redis.locks
    ensures Valid(r') && p in Now(r').redis.members && Now(r').db == Now(r).db
    ensures Stock(Now(r').redis, p.good) == Stock(Now(r).redis, p.good) - 1
    ensures SendGrab(p) in Now(r').tasks && Now(r').users == Now(r).users && Now(r').now == Now(r).now
  {
    var w := Now(r);
    ChecksLeadToScript(w, p);
    var looked := OneMore(r, CheckGrab(p));
    var found := OneMore(looked, FindBuyer(p));
    r' := GrabFromChecked(found, p, w.nextId);
  }

  lemma GrabFromChecked(r: Run, p: Pair, token: int) returns (r': Run)
    requires Valid(r) && TryLock(p) in Now(r).tasks && Now(r).nextId <= token
    requires p.good !in Now(r).redis.locks && GrabReplyOf(Now(r).redis, p) == GrabOk
    ensures Valid(r') && p in Now(r').redis.members && Now(r').db == Now(r).db
    ensures Stock(Now(r').redis, p.good) == Stock(Now(r).redis, p.good) - 1
    ensures SendGrab(p) in Now(r').tasks && Now(r').users == Now(r).users && Now(r').now == Now(r).now
  {
    LockLeadsToScript(Now(r), p, token);
    var locked := OneMore(r, AcquireLock(p, token, true));
    ScriptTakesSlot(Now(locked), p, token);
    r' := OneMore(locked, RunGrabScript(p, token, true, true));
  }

  /** The state right after the first good, with one slot, was published. */
  ghost function FirstPublished(): World
  {
    World(Db(map[2 := GroupBuy(0, 1, 1, 0, 10, Recruiting)], map[], {}), {0, 1},
          Redis(map[2 := 1], {}, map[], map[], map[]),
          multiset{}, multiset{}, map[], multiset{}, multiset{}, 3, 0)
  }

  lemma FirstPublishedIsReached() returns (r: Run)
    ensures Valid(r) && Now(r) == FirstPublished()
  {
    var w := World(Db(map[], map[], {}), {0, 1}, Redis(map[], {}, map[], map[], map[]),
                   multiset{}, multiset{}, map[], multiset{}, multiset{}, 2, 0);
    var e := OpenGood(2, GroupBuy(0, 1, 1, 0, 10, Recruiting));
    r := OneMore(Begin(w), e);
    assert OpenStock(w.redis, 2, 1).stock == map[2 := 1] && OpenStock(w.redis, 2, 1).members == {};
    assert multiset{} - multiset(Carried(e)) + multiset(Started(w, e)) == multiset{};
  }

  /** The documented stock = max - current_members does fail: one grab, no order yet. */
  lemma StockCanRunAhead() returns (r: Run)
    ensures Valid(r) && 2 in Now(r).db.goods
    ensures Stock(Now(r).redis, 2) < Now(r).db.goods[2].max - Now(r).db.goods[2].current
  {
    var published := FirstPublishedIsReached();
    r := SlotCanBeGrabbed(published, Pair(2, 1));
  }

  lemma PublishLeadsOn(w: World, p: Pair)
    requires SendGrab(p) in w.tasks
    ensures var sent := Apply(w, PublishGrab(p, true));
            && Enabled(w, PublishGrab(p, true)) && Enabled(sent, Deliver(p))
            && sent == w.(queue := w.queue + multiset{p}, tasks := sent.tasks)
  {
  }

  lemma DeliveryLeadsOn(w: World, p: Pair)
    requires p in w.queue
    ensures var got := Apply(w, Deliver(p));
            && got == w.(queue := w.queue - multiset{p}, tasks := got.tasks)
            && ReadGood(p) in got.tasks
  {
  }

  lemma LookUpsLeadOn(w: World, p: Pair)
    requires ReadGood(p) in w.tasks && p.good in w.db.goods && p.user in w.users
    ensures var found := Apply(w, FindGood(p));
            && found == w.(tasks := found.tasks) && Enabled(w, FindGood(p)) && Enabled(found, FindUser(p))
            && Apply(found, FindUser(p)) == w.(tasks := Apply(found, FindUser(p)).tasks)
            && InsertOrder(p) in Apply(found, FindUser(p)).tasks
  {
    var found := Apply(w, FindGood(p));
    assert found == w.(tasks := found.tasks) && ReadUser(p) in found.tasks;
  }

  /** A pre-deduct that is about to be published can come to the point of inserting its order. */
  lemma InsertCanBeReached(r: Run, p: Pair) returns (r': Run)
    requires Valid(r) && SendGrab(p) in Now(r).tasks && p.good in Now(r).db.goods && p.user in Now(r).users
    ensures Valid(r') && InsertOrder(p) in Now(r').tasks && Now(r').db == Now(r).db && Now(r').now == Now(r).now
  {
    PublishLeadsOn(Now(r), p);
    r' := OneMore(r, PublishGrab(p, true));
    DeliveryLeadsOn(Now(r'), p);
    r' := OneMore(r', Deliver(p));
    LookUpsLeadOn(Now(r'), p);
    r' := OneMore(r', FindGood(p));
    r' := OneMore(r', FindUser(p));
  }

  lemma ListingLeadsOn(w: World, g: int, t: Task)
    requires T.CanFail(w.db, g, w.now) && t in w.tasks
    ensures var listed := Apply(w, ListFailed(g));
            && Enabled(w, ListFailed(g)) && listed == w.(tasks := listed.tasks)
            && FailGood(g) in listed.tasks && t in listed.tasks
  {
  }

  lemma JudgeLeadsOn(w: World, g: int, t: Task)
    requires FailGood(g) in w.tasks && t in w.tasks && !t.FailGood?
    ensures Enabled(w, CommitFailed(g, true)) && t in Apply(w, CommitFailed(g, true)).tasks
    ensures Apply(w, CommitFailed(g, true)).db == T.JudgeFailed(w.db, g, w.now)
  {
  }

  /** A good can fail while an order for it is on the way. */
  lemma FailureCanOvertake(r: Run, p: Pair, late: int) returns (r': Run)
    requires Valid(r) && InsertOrder(p) in Now(r).tasks && Now(r).now <= late && T.CanFail(Now(r).db, p.good, late)
    ensures Valid(r') && InsertOrder(p) in Now(r').tasks && Now(r').db == T.JudgeFailed(Now(r).db, p.good, late)
  {
    r' := OneMore(r, Tick(late));
    ListingLeadsOn(Now(r'), p.good, InsertOrder(p));
    r' := OneMore(r', ListFailed(p.good));
    JudgeLeadsOn(Now(r'), p.good, InsertOrder(p));
    r' := OneMore(r', CommitFailed(p.good, true));
  }

  lemma LateOrder(w: World, p: Pair)
    requires T.DbInv(w.db) && InsertOrder(p) in w.tasks && !HasOrder(w.db, p) && w.nextId !in w.db.orders
    requires GoodIs(w.db, p.good, Failed) && w.db.goods[p.good].current == 0
    ensures var e := CommitCreate(p, w.nextId, true);
            && Enabled(w, e) && GoodIs(Apply(w, e).db, p.good, Failed)
            && Apply(w, e).db.goods[p.good].current < |LiveOrders(Apply(w, e).db, p.good)|
  {
    T.DuplicateMeansOrdered(w.db, w.nextId, p);
    assert w.nextId in LiveOrders(DbAfter(w, CommitCreate(p, w.nextId, true)), p.good);
  }

  /** A run in which a failed good has a live order that its counter does not include. */
  lemma FailedGoodLags() returns (r: Run)
    ensures Valid(r) && GoodIs(Now(r).db, 2, Failed)
    ensures Now(r).db.goods[2].current < |LiveOrders(Now(r).db, 2)|
  {
    var p := Pair(2, 1);
    var published := FirstPublishedIsReached();
    var grabbed := SlotCanBeGrabbed(published, p);
    var underway := InsertCanBeReached(grabbed, p);
    var failed := FailureCanOvertake(underway, p, 11);
    RunsKeepInv(failed);
    LateOrder(Now(failed), p);
    r := OneMore(failed, CommitCreate(p, Now(failed).nextId, true));
  }

  // ---- No grab is lost --------------------------------------------------------------------

  /** Every member has an order or a pending mark, unless its good or user is gone. */
  lemma EveryGrabIsRemembered(r: Run, p: Pair)
    requires Valid(r) && p in Now(r).redis.members
    ensures var now := Now(r);
            HasOrder(now.db, p) || p in now.redis.pending || p.good !in now.db.goods || p.user !in now.users
  {
    RunsKeepInv(r);
  }

  /** A message is acknowledged, and its mark removed, only for a member whose order
      exists or whose target is gone. */
  lemma AckOnlyWhenSettled(r: Run)
    requires Valid(r) && r.Then? && (r.event.Ack? || r.event.RemoveMark?)
    ensures Settled(Now(r.before), r.event.p)
  {
    RunsKeepInv(r.before);
    SettledBeforeAck(Now(r.before), Log(r.before), r.event, r.now, r.log);
  }

  lemma SettledBeforeAck(w: World, h: History, e: Event, w': World, h': History)
    requires TasksOk(w, h) && Takes(w, h, e, w', h') && (e.Ack? || e.RemoveMark?)
    ensures Settled(w, e.p)
  {
    Taken(w, h, e, w', h');
    assert TaskOk(w, h, if e.Ack? then AckMessage(e.p) else ClearPending(e.p));
  }

  /** A create is refused exactly when the user's order for the good exists, and then
      it changes neither tables nor Redis; otherwise it writes one order, dated now. */
  lemma RefusedExactlyWhenOrdered(r: Run)
    requires Valid(r) && r.Then? && r.event.CommitCreate?
    ensures var was, e := Now(r.before), r.event;
            && (T.Conflicts(was.db, e.order, e.p) <==> HasOrder(was.db, e.p))
            && (HasOrder(was.db, e.p) ==> r.now.db == was.db && r.now.redis == was.redis)
            && (!HasOrder(was.db, e.p) ==>
                  r.now.db.orders == was.db.orders[e.order := Order(e.p.user, e.p.good, PendingPay, was.now, 0)])
  {
    RunsKeepInv(r.before);
    RefusedWhenOrdered(Now(r.before), Log(r.before), r.event, r.now, r.log);
  }

  lemma RefusedWhenOrdered(w: World, h: History, e: Event, w': World, h': History)
    requires T.DbInv(w.db) && Known(w, h) && Takes(w, h, e, w', h') && e.CommitCreate?
    ensures T.Conflicts(w.db, e.order, e.p) <==> HasOrder(w.db, e.p)
    ensures HasOrder(w.db, e.p) ==> w'.db == w.db && w'.redis == w.redis
    ensures !HasOrder(w.db, e.p) ==>
              w'.db.orders == w.db.orders[e.order := Order(e.p.user, e.p.good, PendingPay, w.now, 0)]
  {
    Taken(w, h, e, w', h');
    T.DuplicateMeansOrdered(w.db, e.order, e.p);
  }

  /** Steps that handle a create message, or the mark it left, from listing to acknowledgement. */
  predicate Redelivers(e: Event)
  {
    || e.ListMark? || e.Republish? || e.RenewMarkOf? || e.Deliver? || e.Duplicate? || e.Lose?
    || e.FindGood? || e.FindUser? || e.CommitCreate? || e.RemoveMark? || e.Ack?
  }

  /** Once the order exists, no repeated message and no stale mark, not even one put back
      by a late renewal, changes a table, the stock or the members. */
  lemma RepeatsChangeNothing(r: Run)
    requires Valid(r) && r.Then? && Redelivers(r.event) && HasOrder(Now(r.before).db, r.event.p)
    ensures r.now.db == Now(r.before).db
    ensures r.now.redis == Now(r.before).redis.(pending := r.now.redis.pending)
  {
    if r.event.CommitCreate? {
      RefusedExactlyWhenOrdered(r);
    } else {
      MarksOnly(Now(r.before), Log(r.before), r.event, r.now, r.log);
    }
  }

  lemma MarksOnly(w: World, h: History, e: Event, w': World, h': History)
    requires Takes(w, h, e, w', h') && Redelivers(e) && !e.CommitCreate?
    ensures w'.db == w.db && w'.redis == w.redis.(pending := w'.redis.pending)
  {
    Taken(w, h, e, w', h');
  }

  // ---- One outcome per order ------------------------------------------------------------------

  /** Of all pay, cancel and close calls for an order at most one wins, and exactly one
      has won once the order has left pending_pay.  Its slot goes back at most once, and
      only after a cancel or close won.  A call that loses changes no table and no Redis
      key, reports nothing and starts no slot return. */
  lemma OneTerminalOutcome(r: Run, o: int)
    requires Valid(r)
    ensures var now, facts := Now(r), Log(r).facts;
            && facts[PaidWin(o)] + facts[CancelWin(o)] + facts[CloseWin(o)] ==
               Bit(o in now.db.orders && now.db.orders[o].status != PendingPay)
            && facts[SlotReturned(o)] <= facts[CancelWin(o)] + facts[CloseWin(o)]
            && (HasStatus(now.db, o, Paid) ==> facts[SlotReturned(o)] == 0)
    ensures r.Then? && Loses(Now(r.before), r.event) ==>
              && r.now.db == Now(r.before).db && r.now.redis == Now(r.before).redis && r.log == Log(r.before)
              && r.now.tasks[ReturnSlot(o)] <= Now(r.before).tasks[ReturnSlot(o)]
  {
    RunsKeepInv(r);
    NeverCompleted(r, o);
    OutcomeCounts(Now(r), Log(r), o);
    if r.Then? && Loses(Now(r.before), r.event) {
      LosingStep(Now(r.before), Log(r.before), r.event, r.now, r.log, o);
    }
  }

  lemma OutcomeCounts(w: World, h: History, o: int)
    requires OneOutcome(w, h) && ReturnsOnce(w, h) && !HasStatus(w.db, o, Completed)
    ensures h.facts[PaidWin(o)] + h.facts[CancelWin(o)] + h.facts[CloseWin(o)] ==
            Bit(o in w.db.orders && w.db.orders[o].status != PendingPay)
    ensures h.facts[SlotReturned(o)] <= h.facts[CancelWin(o)] + h.facts[CloseWin(o)]
    ensures HasStatus(w.db, o, Paid) ==> h.facts[SlotReturned(o)] == 0
  {
    assert OutcomeOf(w.db, h.facts, o);
    assert w.tasks[ReturnSlot(o)] + h.facts[SlotReturned(o)] <= Bit(IsDead(w.db, o));
  }

  /** No step of the system writes the status `completed`. */
  lemma {:induction false} NeverCompleted(r: Run, o: int)
    requires Valid(r)
    ensures !HasStatus(Now(r).db, o, Completed)
  {
    match r
    case Begin(_) =>
    case Then(before, e, now, log) =>
      NeverCompleted(before, o);
      StepNeverCompletes(Now(before), Log(before), e, now, log, o);
  }

  lemma StepNeverCompletes(w: World, h: History, e: Event, w': World, h': History, o: int)
    requires Takes(w, h, e, w', h') && !HasStatus(w.db, o, Completed)
    ensures !HasStatus(w'.db, o, Completed)
  {
    Taken(w, h, e, w', h');
  }

  /** A pay, cancel or close call that does not find the order as it needs it. */
  predicate Loses(w: World, e: Event)
  {
    match e
    case CommitPay(o, u, _) => !T.CanPay(w.db, o, u)
    case CommitCancel(o, u, _) => !T.CanCancel(w.db, o, u)
    case CommitClose(o, _) => !T.CanLeavePending(w.db, o)
    case _ => false
  }

  /** An order row changes only by the call that wins it, from pending_pay to the status that
      call stands for; a close is dated when it happens.  A winner that hears of it goes on to
      drop the close task and, unless it paid, to give the slot back. */
  lemma OnlyTheWinnerWrites(r: Run, o: int)
    requires Valid(r) && r.Then? && o in Now(r.before).db.orders
    ensures o in r.now.db.orders
    ensures var was, row, e := Now(r.before).db.orders[o], r.now.db.orders[o], r.event;
            row != was ==>
              && was.status == PendingPay
              && ((e.CommitPay? && e.order == o && e.user == was.user && row == was.(status := Paid)) ||
                  (e.CommitCancel? && e.order == o && e.user == was.user && row == was.(status := Cancelled)) ||
                  (e.CommitClose? && e.order == o && row == was.(status := Closed, closedAt := Now(r.before).now)))
              && (e.seen ==> DropClose(o) in r.now.tasks && (!row.IsLive() ==> ReturnSlot(o) in r.now.tasks))
  {
    WinningStep(Now(r.before), Log(r.before), r.event, r.now, r.log, o);
  }

  lemma WinningStep(w: World, h: History, e: Event, w': World, h': History, o: int)
    requires Takes(w, h, e, w', h') && o in w.db.orders
    ensures o in w'.db.orders
    ensures var was, row := w.db.orders[o], w'.db.orders[o];
            row != was ==>
              && was.status == PendingPay
              && ((e.CommitPay? && e.order == o && e.user == was.user && row == was.(status := Paid)) ||
                  (e.CommitCancel? && e.order == o && e.user == was.user && row == was.(status := Cancelled)) ||
                  (e.CommitClose? && e.order == o && row == was.(status := Closed, closedAt := w.now)))
              && (e.seen ==> DropClose(o) in w'.tasks && (!row.IsLive() ==> ReturnSlot(o) in w'.tasks))
  {
    Taken(w, h, e, w', h');
    OrdersGrowInStep(w, e);
    if w'.db.orders[o] != w.db.orders[o] && e.seen {
      WinnerStarts(w, e, o);
    }
  }

  lemma WinnerStarts(w: World, e: Event, o: int)
    requires o in w.db.orders && o in DbAfter(w, e).orders && DbAfter(w, e).orders[o] != w.db.orders[o]
    requires (e.CommitPay? || e.CommitCancel? || e.CommitClose?) && e.seen
    ensures DropClose(o) in Started(w, e)
    ensures !DbAfter(w, e).orders[o].IsLive() ==> ReturnSlot(o) in Started(w, e)
  {
  }

  lemma LosingStep(w: World, h: History, e: Event, w': World, h': History, o: int)
    requires Takes(w, h, e, w', h') && Loses(w, e)
    ensures w'.db == w.db && w'.redis == w.redis
    ensures h' == h && w'.tasks[ReturnSlot(o)] <= w.tasks[ReturnSlot(o)]
  {
    Taken(w, h, e, w', h');
    assert Facts(w, e) == {} && h.facts + multiset({}) == h.facts;
  }

  // ---- Counting work ---------------------------------------------------------------------------

  lemma MultisetCount<X>(m: multiset<X>, done: set<X>, begun: set<X>, x: X)
    requires forall y :: y in done ==> y in m
    ensures (m - multiset(done) + multiset(begun))[x] == m[x] - Bit(x in done) + Bit(x in begun)
  {
  }

  lemma TaskCount(w: World, e: Event, t: Task)
    requires forall x :: x in Carried(e) ==> x in w.tasks
    ensures Apply(w, e).tasks[t] == w.tasks[t] - Bit(t in Carried(e)) + Bit(t in Started(w, e))
  {
    MultisetCount(w.tasks, Carried(e), Started(w, e), t);
  }

  // ---- Lost slots ------------------------------------------------------------------------------

  /** The cancel or close that wins order o. */
  predicate EndsOrder(w: World, e: Event, o: int)
  {
    || (e.CommitCancel? && e.order == o && T.CanCancel(w.db, o, e.user))
    || (e.CommitClose? && e.order == o && T.CanLeavePending(w.db, o))
  }

  /** The ways to lose a slot: the winning commit is not heard, or its caller dies, or gives
      up on Redis, before the slot is back. */
  predicate LosesSlot(w: World, e: Event, o: int)
  {
    || (EndsOrder(w, e, o) && !e.seen)
    || e == Crash(ReturnSlot(o))
  }

  predicate LostSlot(r: Run, o: int)
  {
    r.Then? && (LostSlot(r.before, o) || LosesSlot(Now(r.before), r.event, o))
  }

  /** Returns of the slot of o, done or still to do. */
  function Returns(w: World, h: History, o: int): int
  {
    w.tasks[ReturnSlot(o)] + h.facts[SlotReturned(o)]
  }

  ghost predicate SlotOk(w: World, h: History, o: int, lost: bool)
  {
    Returns(w, h, o) == Bit(IsDead(w.db, o) && !lost) && (lost ==> IsDead(w.db, o))
  }

  lemma ReturnIsDone(e: Event, o: int)
    ensures ReturnSlot(o) in Carried(e) <==> e == Crash(ReturnSlot(o)) || e == IncrStock(o)
  {
  }

  lemma ReturnIsBegun(w: World, e: Event, o: int)
    ensures ReturnSlot(o) in Started(w, e) <==> EndsOrder(w, e, o) && !LosesSlot(w, e, o)
  {
  }

  lemma ReturnIsReported(w: World, e: Event, o: int)
    ensures SlotReturned(o) in Facts(w, e) <==> e == IncrStock(o)
  {
  }

  lemma OrdersDie(w: World, e: Event, o: int)
    ensures IsDead(DbAfter(w, e), o) <==> IsDead(w.db, o) || EndsOrder(w, e, o)
    ensures EndsOrder(w, e, o) ==> !IsDead(w.db, o)
  {
    DeadStaysDead(w, e, o);
  }

  lemma ReturnsMove(w: World, h: History, e: Event, o: int)
    requires forall t :: t in Carried(e) ==> t in w.tasks
    ensures Returns(Apply(w, e), Record(h, w, e), o) ==
            Returns(w, h, o) + Bit(EndsOrder(w, e, o) && !LosesSlot(w, e, o)) - Bit(e == Crash(ReturnSlot(o)))
  {
    TaskCount(w, e, ReturnSlot(o));
    ReturnIsDone(e, o);
    ReturnIsBegun(w, e, o);
    ReturnIsReported(w, e, o);
  }

  lemma SlotKept(w: World, h: History, e: Event, w': World, h': History, o: int, lost: bool)
    requires Takes(w, h, e, w', h') && SlotOk(w, h, o, lost)
    ensures SlotOk(w', h', o, lost || LosesSlot(w, e, o))
  {
    Taken(w, h, e, w', h');
    ReturnsMove(w, h, e, o);
    ReturnIsDone(e, o);
    OrdersDie(w, e, o);
  }

  lemma {:induction false} SlotsHold(r: Run, o: int)
    requires Valid(r)
    ensures SlotOk(Now(r), Log(r), o, LostSlot(r, o))
  {
    match r
    case Begin(_) =>
    case Then(before, e, now, log) =>
      SlotsHold(before, o);
      SlotKept(Now(before), Log(before), e, now, log, o, LostSlot(before, o));
  }

  /** The slot of a cancelled or closed order is back, or about to be given back, exactly when
      its run has not lost it. */
  lemma DeadOrdersReturnTheirSlot(r: Run, o: int)
    requires Valid(r) && IsDead(Now(r).db, o)
    ensures ReturnSlot(o) in Now(r).tasks || SlotReturned(o) in Log(r).facts <==> !LostSlot(r, o)
  {
    SlotsHold(r, o);
  }

  ghost function ReturningOrders(w: World, g: int): set<int>
  {
    set o | o in DeadOrders(w.db, g) && ReturnSlot(o) in w.tasks
  }

  ghost function LostOrders(r: Run, g: int): set<int>
  {
    set o | o in DeadOrders(Now(r).db, g) && LostSlot(r, o)
  }

  /** Every slot is free, taken by a member or a live order, on its way back, or lost in one
      of the named ways. */
  lemma OnlyNamedLossesLeak(r: Run, g: int)
    requires Valid(r) && g in Log(r).terms
    ensures var now := Now(r);
            Stock(now.redis, g) + |T.Waiting(now.redis.members, now.db, g)| + |LiveOrders(now.db, g)| +
            |ReturningOrders(now, g)| + |LostOrders(r, g)| == Log(r).terms[g].max
  {
    SlotConservation(r, g);
    var dead, back := DeadOrders(Now(r).db, g), ReturnedOrders(Now(r).db, Log(r).facts, g);
    var returning, lost := ReturningOrders(Now(r), g), LostOrders(r, g);
    forall o ensures o in dead <==> o in back || o in returning || o in lost
      ensures !(o in back && o in returning) && !(o in lost && (o in back || o in returning)) {
      SlotsHold(r, o);
    }
    assert dead == back + returning + lost;
    assert |back + returning| == |back| + |returning|;
    assert |back + returning + lost| == |back + returning| + |lost|;
  }

  // ---- One election per good --------------------------------------------------------------------

  /** A good leaves recruiting once, by one transaction that is told so; the late
      "succeeded" branch of the judge never fires; fullness is reported once. */
  lemma ExactlyOneElection(r: Run, g: int)
    requires Valid(r) && g in Now(r).db.goods
    ensures var now, facts := Now(r), Log(r).facts;
            && facts[Elected(g)] + facts[FailedHit(g)] + facts[SucceededHit(g)] ==
               Bit(now.db.goods[g].status != Recruiting)
            && facts[SucceededHit(g)] == 0
            && facts[Filled(g)] == Bit(now.db.goods[g].status == Full)
  {
    RunsKeepInv(r);
    assert ElectionOf(Now(r).db, Now(r).nextId, Log(r).facts, g);
    assert T.RowInv(Now(r).db, g);
  }

  // ---- High-water mark -------------------------------------------------------------------------

  function Count(w: World, g: int): int
  {
    if g in w.db.goods then w.db.goods[g].current else 0
  }

  function Max(a: int, b: int): int { if a < b then b else a }

  /** The largest current_members a good has had so far. */
  function Peak(r: Run, g: int): int
  {
    match r
    case Begin(w) => Count(w, g)
    case Then(before, _, now, _) => Max(Peak(before, g), Count(now, g))
  }

  function StatusAtPeak(peak: int, row: GroupBuy): GoodStatus
  {
    if peak < row.min then Recruiting else if peak < row.max then Succeeded else Full
  }

  ghost predicate PeakInv(w: World, g: int, peak: int)
  {
    && (w.nextId <= g ==> peak == 0)
    && (g in w.db.goods ==>
          var row := w.db.goods[g];
          && row.current <= peak
          && (row.status == StatusAtPeak(peak, row) || (row.status == Failed && peak < row.min)))
  }

  lemma PeakStepByCreate(w: World, e: Event, g: int, peak: int)
    requires PeakInv(w, g, peak) && e.CommitCreate? && Guard(w, e)
    requires g in w.db.goods ==> g < w.nextId && 1 <= w.db.goods[g].min <= w.db.goods[g].max
    ensures PeakInv(Apply(w, e), g, Max(peak, Count(Apply(w, e), g)))
  {
  }

  lemma PeakStepByEnd(w: World, e: Event, g: int, peak: int)
    requires PeakInv(w, g, peak) && (e.CommitCancel? || e.CommitClose?)
    ensures PeakInv(Apply(w, e), g, Max(peak, Count(Apply(w, e), g)))
  {
  }

  lemma PeakStepOtherwise(w: World, e: Event, g: int, peak: int)
    requires PeakInv(w, g, peak) && Guard(w, e) && !(e.CommitSucceeded? && T.CanSucceedLate(w.db, e.good, w.now))
    requires !e.CommitCreate? && !e.CommitCancel? && !e.CommitClose?
    requires g in w.db.goods ==> g < w.nextId && 1 <= w.db.goods[g].min <= w.db.goods[g].max
    requires peak >= 0
    ensures PeakInv(Apply(w, e), g, Max(peak, Count(Apply(w, e), g)))
  {
  }

  lemma PeakNext(w: World, h: History, e: Event, w': World, h': History, g: int, peak: int)
    requires T.DbInv(w.db) && Known(w, h) && Takes(w, h, e, w', h')
    requires peak >= 0 && PeakInv(w, g, peak)
    ensures PeakInv(w', g, Max(peak, Count(w', g)))
  {
    Taken(w, h, e, w', h');
    if e.CommitSucceeded? {
      T.JudgeKeepsInv(w.db, e.good, w.now);
    }
    assert g in w.db.goods ==> T.RowInv(w.db, g);
    if e.CommitCreate? {
      PeakStepByCreate(w, e, g, peak);
    } else if e.CommitCancel? || e.CommitClose? {
      PeakStepByEnd(w, e, g, peak);
    } else {
      PeakStepOtherwise(w, e, g, peak);
    }
  }

  lemma {:induction false} PeakHolds(r: Run, g: int)
    requires Valid(r)
    ensures Peak(r, g) >= 0 && PeakInv(Now(r), g, Peak(r, g))
  {
    match r
    case Begin(_) =>
    case Then(before, e, now, log) =>
      PeakHolds(before, g);
      RunsKeepInv(before);
      PeakNext(Now(before), Log(before), e, now, log, g, Peak(before, g));
  }

  /** Despite any cancels, the status of a good that has not failed tells how far its
      member count ever got; a failed one never reached the minimum. */
  lemma StatusIsHighWaterMark(r: Run, g: int)
    requires Valid(r) && g in Now(r).db.goods
    ensures var row, peak := Now(r).db.goods[g], Peak(r, g);
            && (row.status != Failed ==>
                  && (row.status == Recruiting <==> peak < row.min)
                  && (row.status == Succeeded <==> row.min <= peak < row.max)
                  && (row.status == Full <==> peak == row.max))
            && (row.status == Failed ==> peak < row.min)
  {
    PeakHolds(r, g);
    RunsKeepInv(r);
    assert T.RowInv(Now(r).db, g);
    PeakBelowMax(r, g);
  }

  lemma {:induction false} PeakBelowMax(r: Run, g: int)
    requires Valid(r)
    ensures Peak(r, g) <= (if g in Log(r).terms then Log(r).terms[g].max else 0)
  {
    CountBelowMax(r, g);
    match r
    case Begin(_) =>
    case Then(before, e, now, log) =>
      PeakBelowMax(before, g);
      RunsKeepInv(before);
      TermsAreKept(Now(before), Log(before), e, now, log, g);
  }

  lemma CountBelowMax(r: Run, g: int)
    requires Valid(r)
    ensures Count(Now(r), g) <= (if g in Log(r).terms then Log(r).terms[g].max else 0)
  {
    RunsKeepInv(r);
    if g in Now(r).db.goods {
      NoOversell(r, g);
    }
  }

  lemma TermsAreKept(w: World, h: History, e: Event, w': World, h': History, g: int)
    requires Known(w, h) && Takes(w, h, e, w', h')
    ensures if g in h.terms then g in h'.terms && h'.terms[g] == h.terms[g]
            else g in h'.terms ==> h'.terms[g].max >= 0
  {
    Taken(w, h, e, w', h');
  }

  // ---- Timeout close ------------------------------------------------------------------------------

  /** No order is closed less than 30 minutes after it was created. */
  lemma NeverClosedEarly(r: Run, o: int)
    requires Valid(r) && HasStatus(Now(r).db, o, Closed)
    ensures var row := Now(r).db.orders[o]; row.closedAt >= row.createdAt + 30 * 60 * SECOND
  {
    RunsKeepInv(r);
    assert TimesOf(Now(r).db.orders[o], Now(r).now);
  }

  lemma ScheduleStep(w: World, h: History, e: Event, o: int)
    requires CarriedOk(w, h, e) && o in w.redis.closeAt && HasStatus(w.db, o, PendingPay)
    ensures o in RedisAfter(w, e).closeAt
  {
    if e.RemoveClose? {
      assert TaskOk(w, h, DropClose(e.order));
    }
  }

  lemma IdsGrow(w: World, e: Event)
    requires Guard(w, e)
    ensures w.nextId <= NextIdAfter(w, e)
  {
  }

  /** An order once scheduled stays scheduled until it leaves pending_pay. */
  lemma {:induction false} StaysScheduled(start: Run, r: Run, o: int)
    requires Valid(r) && Continues(r, start) && o in Now(start).redis.closeAt
    ensures Valid(start) && o < Now(r).nextId
    ensures o in Now(r).redis.closeAt || !HasStatus(Now(r).db, o, PendingPay)
    decreases r
  {
    if r == start {
      ScheduledIsKnown(r, o);
    } else {
      StaysScheduled(start, r.before, o);
      RunsKeepInv(r.before);
      StaysScheduledNext(Now(r.before), Log(r.before), r.event, r.now, r.log, o);
    }
  }

  lemma ScheduledIsKnown(r: Run, o: int)
    requires Valid(r) && o in Now(r).redis.closeAt
    ensures o < Now(r).nextId
  {
    RunsKeepInv(r);
  }

  lemma StaysScheduledNext(w: World, h: History, e: Event, w': World, h': History, o: int)
    requires Known(w, h) && TasksOk(w, h) && Takes(w, h, e, w', h') && o < w.nextId
    requires o in w.redis.closeAt || !HasStatus(w.db, o, PendingPay)
    ensures o < w'.nextId && (o in w'.redis.closeAt || !HasStatus(w'.db, o, PendingPay))
  {
    Taken(w, h, e, w', h');
    IdsGrow(w, e);
    StaysScheduledStep(w, h, e, o);
  }

  lemma NotPendingStays(w: World, h: History, e: Event, o: int)
    requires Guard(w, e) && o < w.nextId && !HasStatus(w.db, o, PendingPay)
    ensures !HasStatus(DbAfter(w, e), o, PendingPay)
  {
  }

  lemma StaysScheduledStep(w: World, h: History, e: Event, o: int)
    requires Known(w, h) && TasksOk(w, h) && Enabled(w, e) && o < w.nextId
    requires o in w.redis.closeAt || !HasStatus(w.db, o, PendingPay)
    ensures o in RedisAfter(w, e).closeAt || !HasStatus(DbAfter(w, e), o, PendingPay)
  {
    CarriedIsOk(w, h, e);
    if !HasStatus(w.db, o, PendingPay) {
      NotPendingStays(w, h, e, o);
    } else {
      ScheduleStep(w, h, e, o);
    }
  }

  // ---- Lost closes ---------------------------------------------------------------------------------

  /** What is there to have an order closed: work to schedule it, compensation rows that owe
      the same, and its entry in the close queue. */
  datatype Chain = Chain(chores: int, debts: int, scheduled: bool)
  {
    predicate Broken() { chores == 0 && debts == 0 && !scheduled }

    /** One piece of work at a time, and nobody schedules what is scheduled already. */
    predicate Single()
    {
      0 <= chores && 0 <= debts && chores + debts <= 1 && (chores == 1 ==> !scheduled)
    }
  }

  function ChainOf(w: World, o: int): Chain
  {
    Chain(w.tasks[EnqueueClose(o)], w.owed[OweClose(o)], o in w.redis.closeAt)
  }

  predicate CloseIsDue(w: World, o: int) { !ChainOf(w, o).Broken() }

  predicate Creates(w: World, e: Event, o: int)
  {
    e.CommitCreate? && e.order == o && !T.Conflicts(w.db, o, e.p)
  }

  /** What an event makes of each part of the chain. */
  function ChainAfter(w: World, e: Event, o: int): Chain
  {
    var c := ChainOf(w, o);
    Chain(c.chores - Bit(EndsChore(e, o)) + Bit(Creates(w, e, o) && e.seen),
          c.debts + Incurred(e, o),
          e != RemoveClose(o) && (c.scheduled || Schedules(e, o)))
  }

  predicate EndsChore(e: Event, o: int)
  {
    e == Crash(EnqueueClose(o)) || (e.AddClose? && e.order == o)
  }

  function Incurred(e: Event, o: int): int
  {
    if e.AddClose? && e.order == o && e.owe then 1
    else if e.RepayClose? && e.order == o && !e.keep then -1
    else 0
  }

  predicate Schedules(e: Event, o: int)
  {
    (e.AddClose? || e.RepayClose?) && e.order == o && e.done
  }

  lemma ChoreIsDone(e: Event, o: int)
    ensures EnqueueClose(o) in Carried(e) <==> EndsChore(e, o)
  {
  }

  lemma ChoreIsBegun(w: World, e: Event, o: int)
    ensures EnqueueClose(o) in Started(w, e) <==> Creates(w, e, o) && e.seen
  {
  }

  lemma DebtsMade(w: World, e: Event, o: int)
    requires !e.RepayClose?
    ensures OwedAfter(w, e)[OweClose(o)] == w.owed[OweClose(o)] + Bit(e.AddClose? && e.order == o && e.owe)
  {
  }

  lemma DebtsCount(w: World, e: Event, o: int)
    requires e.RepayClose? ==> OweClose(e.order) in w.owed
    ensures OwedAfter(w, e)[OweClose(o)] == w.owed[OweClose(o)] + Incurred(e, o)
  {
    if e.RepayClose? {
      assert OwedAfter(w, e) == if e.keep then w.owed else w.owed - multiset{OweClose(e.order)};
    } else {
      DebtsMade(w, e, o);
    }
  }

  lemma EntriesStep(w: World, e: Event, o: int)
    ensures o in RedisAfter(w, e).closeAt <==> ChainAfter(w, e, o).scheduled
  {
  }

  lemma ChainSteps(w: World, e: Event, o: int)
    requires (forall t :: t in Carried(e) ==> t in w.tasks) && (e.RepayClose? ==> OweClose(e.order) in w.owed)
    ensures ChainOf(Apply(w, e), o) == ChainAfter(w, e, o)
  {
    TaskCount(w, e, EnqueueClose(o));
    ChoreIsDone(e, o);
    ChoreIsBegun(w, e, o);
    DebtsCount(w, e, o);
    EntriesStep(w, e, o);
  }

  /** The ways to lose the close of an order: its commit is not heard, its handler dies before
      scheduling it, neither scheduling nor the compensation row takes effect, or the row is
      given up while nothing is scheduled. */
  predicate LosesClose(w: World, e: Event, o: int)
  {
    || (Creates(w, e, o) && !e.seen)
    || e == Crash(EnqueueClose(o))
    || (e.AddClose? && e.order == o && !e.done && !e.owe)
    || (e.RepayClose? && e.order == o && !e.done && !e.keep && o !in w.redis.closeAt)
  }

  predicate LostClose(r: Run, o: int)
  {
    r.Then? && (LostClose(r.before, o) || LosesClose(Now(r.before), r.event, o))
  }

  /** Before an order exists nothing is there to close it, and nothing is lost. */
  ghost predicate ChainOk(w: World, o: int, lost: bool)
  {
    && ChainOf(w, o).Single()
    && (o !in w.db.orders ==> ChainOf(w, o).Broken() && !lost)
    && (HasStatus(w.db, o, PendingPay) ==> (CloseIsDue(w, o) <==> !lost))
  }

  lemma OrdersAppear(w: World, h: History, e: Event, w': World, h': History, o: int)
    requires Takes(w, h, e, w', h')
    ensures o in w'.db.orders <==> o in w.db.orders || Creates(w, e, o)
    ensures HasStatus(w'.db, o, PendingPay) ==> HasStatus(w.db, o, PendingPay) || Creates(w, e, o)
    ensures Creates(w, e, o) ==> o !in w.db.orders
  {
    Taken(w, h, e, w', h');
    OrdersGrowInStep(w, e);
  }

  lemma ChainMoves(w: World, h: History, e: Event, w': World, h': History, o: int)
    requires Takes(w, h, e, w', h')
    ensures ChainOf(w', o) == ChainAfter(w, e, o)
  {
    Taken(w, h, e, w', h');
    ChainSteps(w, e, o);
  }

  lemma ChainMovers(w: World, h: History, e: Event, w': World, h': History, o: int)
    requires Takes(w, h, e, w', h') && TasksOk(w, h)
    ensures EndsChore(e, o) ==> ChainOf(w, o).chores > 0
    ensures e.RepayClose? && e.order == o ==> ChainOf(w, o).debts > 0
    ensures e == RemoveClose(o) ==> o in w.db.orders && !HasStatus(w.db, o, PendingPay)
  {
    Taken(w, h, e, w', h');
    ChoreIsDone(e, o);
    if e == RemoveClose(o) {
      assert TaskOk(w, h, DropClose(o));
    }
  }

  lemma ChainLives(w: World, e: Event, w': World, o: int, lost: bool)
    requires ChainOk(w, o, lost) && ChainOf(w', o) == ChainAfter(w, e, o) && !Creates(w, e, o)
    requires (o in w'.db.orders <==> o in w.db.orders)
    requires HasStatus(w'.db, o, PendingPay) ==> HasStatus(w.db, o, PendingPay) && e != RemoveClose(o)
    requires EndsChore(e, o) ==> ChainOf(w, o).chores > 0
    requires e.RepayClose? && e.order == o ==> ChainOf(w, o).debts > 0
    ensures ChainOk(w', o, lost || LosesClose(w, e, o))
  {
  }

  lemma ChainKept(w: World, h: History, e: Event, w': World, h': History, o: int, lost: bool)
    requires TasksOk(w, h) && Takes(w, h, e, w', h') && ChainOk(w, o, lost)
    ensures ChainOk(w', o, lost || LosesClose(w, e, o))
  {
    ChainMoves(w, h, e, w', h', o);
    ChainMovers(w, h, e, w', h', o);
    OrdersAppear(w, h, e, w', h', o);
    if !Creates(w, e, o) {
      ChainLives(w, e, w', o, lost);
    }
  }

  lemma {:induction false} ChainsHold(r: Run, o: int)
    requires Valid(r)
    ensures ChainOk(Now(r), o, LostClose(r, o))
  {
    match r
    case Begin(_) =>
    case Then(before, e, now, log) =>
      ChainsHold(before, o);
      RunsKeepInv(before);
      ChainKept(Now(before), Log(before), e, now, log, o, LostClose(before, o));
  }

  /** An order that waits for payment is scheduled, about to be, or owed as compensation
      exactly when its run has not lost it in one of the four ways. */
  lemma PendingOrdersAreScheduled(r: Run, o: int)
    requires Valid(r) && HasStatus(Now(r).db, o, PendingPay)
    ensures CloseIsDue(Now(r), o) <==> !LostClose(r, o)
  {
    ChainsHold(r, o);
  }

  lemma {:induction false} LostStaysLost(start: Run, r: Run, o: int)
    requires Continues(r, start) && LostClose(start, o)
    ensures LostClose(r, o)
    decreases r
  {
    if r != start {
      LostStaysLost(start, r.before, o);
    }
  }

  /** Nothing in the system brings a lost order back into the close queue: for as long as
      nobody pays or cancels it, it waits unscheduled. */
  lemma LostOrdersAreNotRecovered(start: Run, r: Run, o: int)
    requires Valid(r) && Continues(r, start) && LostClose(start, o)
    requires HasStatus(Now(r).db, o, PendingPay)
    ensures !CloseIsDue(Now(r), o)
  {
    LostStaysLost(start, r, o);
    PendingOrdersAreScheduled(r, o);
  }

  lemma UnheardCreate(w: World, p: Pair)
    requires InsertOrder(p) in w.tasks && !T.Conflicts(w.db, w.nextId, p)
    ensures var e := CommitCreate(p, w.nextId, false);
            Enabled(w, e) && LosesClose(w, e, w.nextId) && HasStatus(DbAfter(w, e), w.nextId, PendingPay)
  {
  }

  lemma FreshIdIsFree(r: Run, p: Pair)
    requires Valid(r) && !HasOrder(Now(r).db, p)
    ensures !T.Conflicts(Now(r).db, Now(r).nextId, p)
  {
    RunsKeepInv(r);
    T.DuplicateMeansOrdered(Now(r).db, Now(r).nextId, p);
  }

  /** Any order about to be inserted can be lost by an unheard commit. */
  lemma InsertCanBeLost(r: Run, p: Pair) returns (r': Run, o: int)
    requires Valid(r) && InsertOrder(p) in Now(r).tasks && !HasOrder(Now(r).db, p)
    ensures Valid(r') && HasStatus(Now(r').db, o, PendingPay) && LostClose(r', o)
  {
    o := Now(r).nextId;
    FreshIdIsFree(r, p);
    UnheardCreate(Now(r), p);
    r' := OneMore(r, CommitCreate(p, o, false));
  }

  /** A run whose order waits for payment and is never scheduled: the answer to its commit
      was lost, and its redelivered message will find a duplicate. */
  lemma OrderCanBeStranded() returns (r: Run, o: int)
    ensures Valid(r) && HasStatus(Now(r).db, o, PendingPay) && !CloseIsDue(Now(r), o)
  {
    var p := Pair(2, 1);
    var published := FirstPublishedIsReached();
    var grabbed := SlotCanBeGrabbed(published, p);
    var underway := InsertCanBeReached(grabbed, p);
    r, o := InsertCanBeLost(underway, p);
    PendingOrdersAreScheduled(r, o);
  }

  // ---- Locks --------------------------------------------------------------------------------------

  /** A lock goes only by expiring or by its holder's token, and passes to nobody before. */
  lemma OnlyTheHolderUnlocks(r: Run, g: int)
    requires Valid(r) && r.Then? && g in Now(r.before).redis.locks
    ensures var token := Now(r.before).redis.locks[g];
            || (g in r.now.redis.locks && r.now.redis.locks[g] == token)
            || r.event == LockExpires(g) || r.event == FreeLock(g, token)
  {
    LockStays(Now(r.before), Log(r.before), r.event, r.now, r.log, g);
  }

  lemma LockStays(w: World, h: History, e: Event, w': World, h': History, g: int)
    requires Takes(w, h, e, w', h') && g in w.redis.locks
    ensures || (g in w'.redis.locks && w'.redis.locks[g] == w.redis.locks[g])
            || e == LockExpires(g) || e == FreeLock(g, w.redis.locks[g])
  {
    Taken(w, h, e, w', h');
    if e != LockExpires(g) && e != FreeLock(g, w.redis.locks[g]) {
      LockMoves(w, e, g);
    }
  }

  lemma LockMoves(w: World, e: Event, g: int)
    requires g in w.redis.locks && e != LockExpires(g) && e != FreeLock(g, w.redis.locks[g])
    ensures g in RedisAfter(w, e).locks && RedisAfter(w, e).locks[g] == w.redis.locks[g]
  {
  }

  /** Somebody is going to free the lock. */
  ghost predicate HasHolder(w: World, g: int, token: int)
  {
    Unlock(g, token) in w.tasks || exists t :: t in w.tasks && t.Locked? && t.p.good == g && t.token == token
  }

  /** The ways to leave a lock to its expiry: taking it is not heard, or its holder dies. */
  predicate LeavesLock(e: Event, g: int, token: int)
  {
    || (e.AcquireLock? && e.p.good == g && e.token == token && !e.seen)
    || e == Crash(Unlock(g, token))
    || (e.Crash? && e.task.Locked? && e.task.p.good == g && e.task.token == token)
  }

  predicate LeftLock(r: Run, g: int, token: int)
  {
    r.Then? && (LeftLock(r.before, g, token) || LeavesLock(r.event, g, token))
  }

  lemma LockIsTaken(w: World, e: Event, g: int)
    requires Enabled(w, e) && g in RedisAfter(w, e).locks
    requires !(g in w.redis.locks && w.redis.locks[g] == RedisAfter(w, e).locks[g])
    ensures e.AcquireLock? && e.p.good == g && e.token == RedisAfter(w, e).locks[g]
    ensures e.seen ==> Locked(e.p, e.token) in Started(w, e)
  {
  }

  lemma HolderActs(e: Event, t: Task)
    requires t in Carried(e) && (t.Locked? || t.Unlock?) && e != Crash(t)
    ensures if t.Unlock? then e == FreeLock(t.good, t.token) else e.RunGrabScript? && e.p == t.p && e.token == t.token
  {
  }

  lemma ScriptStartsUnlock(w: World, e: Event)
    requires e.RunGrabScript?
    ensures Unlock(e.p.good, e.token) in Started(w, e)
  {
  }

  lemma TaskGoesOn(w: World, e: Event, t: Task)
    requires t in w.tasks && t !in Carried(e)
    ensures t in Apply(w, e).tasks
  {
  }

  lemma HolderGoesOn(w: World, e: Event, g: int, token: int)
    requires HasHolder(w, g, token) && !LeavesLock(e, g, token)
    requires g in w.redis.locks && w.redis.locks[g] == token && g in RedisAfter(w, e).locks
    ensures HasHolder(Apply(w, e), g, token)
  {
    var t := Unlock(g, token);
    if t !in w.tasks {
      t :| t in w.tasks && t.Locked? && t.p.good == g && t.token == token;
    }
    if t in Carried(e) {
      HolderActs(e, t);
      ScriptStartsUnlock(w, e);
    } else {
      TaskGoesOn(w, e, t);
    }
  }

  lemma LockStep(w: World, h: History, e: Event, w': World, h': History, g: int)
    requires Takes(w, h, e, w', h') && g in w'.redis.locks && !LeavesLock(e, g, w'.redis.locks[g])
    requires g in w.redis.locks && w.redis.locks[g] == w'.redis.locks[g] ==> HasHolder(w, g, w'.redis.locks[g])
    ensures HasHolder(w', g, w'.redis.locks[g])
  {
    Taken(w, h, e, w', h');
    if g in w.redis.locks && w.redis.locks[g] == w'.redis.locks[g] {
      HolderGoesOn(w, e, g, w'.redis.locks[g]);
    } else {
      LockIsTaken(w, e, g);
    }
  }

  /** A lock that is held is about to be freed, unless it was left to its expiry. */
  lemma {:induction false} LocksAreFreed(r: Run, g: int)
    requires Valid(r) && g in Now(r).redis.locks
    ensures HasHolder(Now(r), g, Now(r).redis.locks[g]) || LeftLock(r, g, Now(r).redis.locks[g])
  {
    var token := Now(r).redis.locks[g];
    if !LeftLock(r, g, token) {
      match r
      case Begin(_) =>
      case Then(before, e, now, log) =>
        if g in Now(before).redis.locks && Now(before).redis.locks[g] == token {
          LocksAreFreed(before, g);
        }
        LockStep(Now(before), Log(before), e, now, log, g);
    }
  }

  // ---- Notices --------------------------------------------------------------------------------------

  predicate TellsEnd(c: Category)
  {
    c == TellPaid || c == TellCancelled || c == TellClosed
  }

  predicate TellsVerdict(c: Category)
  {
    c == TellSucceeded || c == TellFailed
  }

  /** One stored notice per (user, category, ref); never two different end states of
      one order, never both success and failure of one good, whoever is told. */
  lemma NoticesExcludeEachOther(r: Run, i: int, j: int)
    requires Valid(r) && i in Now(r).inbox && j in Now(r).inbox
    ensures var a, b := Now(r).inbox[i], Now(r).inbox[j];
            && (a == b ==> i == j)
            && (a.ref == b.ref && TellsEnd(a.category) && TellsEnd(b.category) ==> a.category == b.category)
            && (a.ref == b.ref && TellsVerdict(a.category) && TellsVerdict(b.category) ==> a.category == b.category)
  {
    RunsKeepInv(r);
    InboxExcludes(Now(r), Log(r), i, j);
  }

  lemma InboxExcludes(w: World, h: History, i: int, j: int)
    requires QueuesOk(w, h) && OneOutcome(w, h) && Elections(w, h) && OneNoticeEach(w)
    requires i in w.inbox && j in w.inbox
    ensures var a, b := w.inbox[i], w.inbox[j];
            && (a == b ==> i == j)
            && (a.ref == b.ref && TellsEnd(a.category) && TellsEnd(b.category) ==> a.category == b.category)
            && (a.ref == b.ref && TellsVerdict(a.category) && TellsVerdict(b.category) ==> a.category == b.category)
  {
    assert OutcomeOf(w.db, h.facts, w.inbox[i].ref);
    assert ElectionOf(w.db, w.nextId, h.facts, w.inbox[i].ref);
  }

  // ---- What a run never takes back ---------------------------------------------------------------------

  lemma {:induction false} RunsGrow(start: Run, r: Run)
    requires Valid(r) && Continues(r, start)
    ensures Valid(start) && Grows(Now(start), Log(start), Now(r), Log(r))
    decreases r
  {
    if r != start {
      RunsGrow(start, r.before);
      RunsKeepInv(r.before);
      StepGrowsInRun(Now(r.before), Log(r.before), r.event, r.now, r.log);
      GrowsFurther(Now(start), Log(start), Now(r.before), Log(r.before), Now(r), Log(r));
    }
  }

  lemma StepGrowsInRun(w: World, h: History, e: Event, w': World, h': History)
    requires Known(w, h) && Takes(w, h, e, w', h')
    ensures Grows(w, h, w', h')
  {
    Taken(w, h, e, w', h');
    StepGrows(w, h, e);
  }

  lemma GrowsFurther(a: World, h: History, b: World, i: History, c: World, j: History)
    requires Grows(a, h, b, i) && Grows(b, i, c, j)
    ensures Grows(a, h, c, j)
  {
  }

  /** An order that left pending_pay keeps its status for good. */
  lemma EndStatesAreFinal(start: Run, r: Run, o: int)
    requires Valid(r) && Continues(r, start)
    requires o in Now(start).db.orders && Now(start).db.orders[o].status != PendingPay
    ensures o in Now(r).db.orders && Now(r).db.orders[o] == Now(start).db.orders[o]
  {
    RunsGrow(start, r);
  }

  /** A member stays one, and once settled stays settled. */
  lemma SettledForGood(start: Run, r: Run, p: Pair)
    requires Valid(r) && Continues(r, start) && p in Now(start).redis.members
    ensures p in Now(r).redis.members
    ensures Settled(Now(start), p) ==> Settled(Now(r), p)
  {
    RunsGrow(start, r);
    RunsKeepInv(start);
    if Settled(Now(start), p) {
      StaysSettled(Now(start), Log(start), Now(r), Log(r), p);
    }
  }

  /** A failed good never recruits again; its counter stays short of the minimum. */
  lemma FailedForGood(start: Run, r: Run, g: int)
    requires Valid(r) && Continues(r, start) && GoodIs(Now(start).db, g, Failed) && g in Now(r).db.goods
    ensures GoodIs(Now(r).db, g, Failed)
    ensures Now(r).db.goods[g].current < Now(r).db.goods[g].min
    ensures Now(r).db.goods[g].current <= |LiveOrders(Now(r).db, g)|
  {
    RunsGrow(start, r);
    RunsKeepInv(start);
    RunsKeepInv(r);
    FailureIsRemembered(Now(start), Log(start), Now(r), Log(r), g);
    T.CounterAgreement(Now(r).db, g);
  }

  lemma FailureIsRemembered(w: World, h: History, w': World, h': History, g: int)
    requires Elections(w, h) && Elections(w', h') && h.facts <= h'.facts
    requires GoodIs(w.db, g, Failed) && g in w'.db.goods
    ensures GoodIs(w'.db, g, Failed)
  {
    assert ElectionOf(w.db, w.nextId, h.facts, g);
    assert ElectionOf(w'.db, w'.nextId, h'.facts, g);
    assert h.facts[FailedHit(g)] <= h'.facts[FailedHit(g)];
  }
}
