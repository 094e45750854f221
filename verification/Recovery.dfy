/**
 Who gets in, and that nothing gets stuck: every mark and every close task falls due,
 and from every reachable state the system can finish what it owes.
 */
module Recovery {
  import opened Model
  import opened RedisKeys
  import opened Protocol
  import opened Invariants
  import opened Safety
  import T = OrderTables

  // ---- Marks and close tasks fall due ----------------------------------------------------

  /** No score lies further ahead than the clock, for marks, or half an hour, for close tasks. */
  ghost predicate Dated(w: World)
  {
    && (forall p :: p in w.redis.pending ==> w.redis.pending[p] <= Unix(w.now))
    && (forall o :: o in w.redis.closeAt ==> w.redis.closeAt[o] <= Unix(w.now + ORDER_CLOSE_DELAY))
  }

  lemma MarkIsDated(w: World, e: Event, p: Pair)
    requires p in RedisAfter(w, e).pending
    ensures (p in w.redis.pending && RedisAfter(w, e).pending[p] == w.redis.pending[p]) ||
            RedisAfter(w, e).pending[p] == Unix(w.now)
  {
  }

  lemma CloseIsDated(w: World, e: Event, o: int)
    requires o in RedisAfter(w, e).closeAt
    ensures (o in w.redis.closeAt && RedisAfter(w, e).closeAt[o] == w.redis.closeAt[o]) ||
            RedisAfter(w, e).closeAt[o] == Unix(w.now + ORDER_CLOSE_DELAY)
  {
  }

  lemma TimePasses(w: World, e: Event)
    requires Guard(w, e)
    ensures w.now <= Apply(w, e).now
  {
  }

  lemma StepKeepsDated(w: World, h: History, e: Event, w': World, h': History)
    requires Dated(w) && Takes(w, h, e, w', h')
    ensures Dated(w')
  {
    Taken(w, h, e, w', h');
    TimePasses(w, e);
    UnixGrows(w.now, w'.now);
    UnixGrows(w.now + ORDER_CLOSE_DELAY, w'.now + ORDER_CLOSE_DELAY);
    forall p | p in w'.redis.pending ensures w'.redis.pending[p] <= Unix(w'.now) {
      MarkIsDated(w, e, p);
    }
    forall o | o in w'.redis.closeAt ensures w'.redis.closeAt[o] <= Unix(w'.now + ORDER_CLOSE_DELAY) {
      CloseIsDated(w, e, o);
    }
  }

  lemma {:induction false} RunsAreDated(r: Run)
    requires Valid(r)
    ensures Dated(Now(r))
  {
    match r
    case Begin(_) =>
    case Then(before, e, now, log) =>
      RunsAreDated(before);
      StepKeepsDated(Now(before), Log(before), e, now, log);
  }

  /** A mark left alone for 31 seconds counts as expired, and a close task left alone for
      half an hour and a second as due. */
  lemma MarksAndClosesFallDue(r: Run, p: Pair, o: int, later: int)
    requires Valid(r)
    ensures p in Now(r).redis.pending && Now(r).now + 31 * SECOND <= later ==>
              MarkExpired(Now(r).redis, p, later)
    ensures o in Now(r).redis.closeAt && Now(r).now + 1801 * SECOND <= later ==>
              CloseDue(Now(r).redis, o, later)
  {
    RunsAreDated(r);
    UnixGrows(Now(r).now + SECOND, later - PENDING_TIMEOUT);
    UnixGrows(Now(r).now + ORDER_CLOSE_DELAY + SECOND, later);
  }

  // ---- Nobody joins their own good ------------------------------------------------------------

  predicate MayJoin(h: History, p: Pair)
  {
    p.good in h.terms && h.terms[p.good].publisher != p.user
  }

  /** A grab that has passed the checks. */
  predicate IsGrab(t: Task)
  {
    t.ReadBuyer? || t.TryLock? || t.Locked?
  }

  ghost predicate Eligible(w: World, h: History)
  {
    && (forall p :: p in w.redis.members ==> MayJoin(h, p))
    && (forall t :: t in w.tasks && IsGrab(t) ==> MayJoin(h, t.p))
  }

  /** Members come from locked grabs, locked grabs from checked ones. */
  lemma GrabComesFrom(w: World, e: Event, t: Task)
    requires Enabled(w, e) && t in Started(w, e) && IsGrab(t)
    ensures (e == CheckGrab(t.p) && MayGrab(w, t.p)) || (exists x :: x in Carried(e) && IsGrab(x) && x.p == t.p)
  {
    match e
    case FindBuyer(p) => assert ReadBuyer(p) in Carried(e);
    case AcquireLock(p, _, _) => assert TryLock(p) in Carried(e);
    case _ =>
  }

  lemma MemberComesFrom(w: World, e: Event, p: Pair)
    requires p in RedisAfter(w, e).members
    ensures p in w.redis.members || exists x :: x in Carried(e) && IsGrab(x) && x.p == p
  {
    if e.RunGrabScript? {
      assert Locked(e.p, e.token) in Carried(e);
    }
  }

  lemma CheckedMayJoin(w: World, h: History, p: Pair)
    requires Known(w, h) && MayGrab(w, p)
    ensures MayJoin(h, p)
  {
  }

  lemma TermsAreKept(w: World, h: History, e: Event)
    requires Known(w, h) && Guard(w, e)
    ensures forall g :: g in h.terms ==> g in Published(h.terms, e) && Published(h.terms, e)[g] == h.terms[g]
  {
    TermsStay(w, h, e);
  }

  lemma StepKeepsEligible(w: World, h: History, e: Event, w': World, h': History)
    requires Known(w, h) && Eligible(w, h) && Takes(w, h, e, w', h')
    ensures Eligible(w', h')
  {
    Taken(w, h, e, w', h');
    TermsAreKept(w, h, e);
    forall p | p in w'.redis.members ensures MayJoin(h', p) {
      MemberComesFrom(w, e, p);
    }
    forall t | t in w'.tasks && IsGrab(t) ensures MayJoin(h', t.p) {
      if t !in w.tasks {
        GrabComesFrom(w, e, t);
        if e == CheckGrab(t.p) {
          CheckedMayJoin(w, h, t.p);
        }
      }
    }
  }

  lemma {:induction false} RunsAreEligible(r: Run)
    requires Valid(r)
    ensures Eligible(Now(r), Log(r))
  {
    match r
    case Begin(_) =>
    case Then(before, e, now, log) =>
      RunsAreEligible(before);
      RunsKeepInv(before);
      StepKeepsEligible(Now(before), Log(before), e, now, log);
  }

  /** No slot, and so no order, of a good ever goes to its publisher. */
  lemma NobodyJoinsTheirOwn(r: Run, p: Pair)
    requires Valid(r) && (p in Now(r).redis.members || HasOrder(Now(r).db, p))
    ensures p.good in Log(r).terms && Log(r).terms[p.good].publisher != p.user
    ensures p.good in Now(r).db.goods ==> Now(r).db.goods[p.good].publisher != p.user
  {
    RunsKeepInv(r);
    RunsAreEligible(r);
    OwnerMayJoin(Now(r), Log(r), p);
  }

  lemma OwnerMayJoin(w: World, h: History, p: Pair)
    requires Known(w, h) && Eligible(w, h) && (p in w.redis.members || HasOrder(w.db, p))
    ensures MayJoin(h, p) && (p.good in w.db.goods ==> w.db.goods[p.good].publisher != p.user)
  {
  }

  // ---- Closed goods ------------------------------------------------------------------------------

  /** Nobody passes the checks for the good any more. */
  predicate Shut(w: World, g: int)
  {
    g !in w.db.goods || w.db.goods[g].status != Recruiting || w.db.goods[g].deadline < w.now
  }

  /** Has a slot, or has passed the checks and may still get one. */
  ghost predicate Inside(w: World, p: Pair)
  {
    p in w.redis.members || exists t :: t in w.tasks && IsGrab(t) && t.p == p
  }

  lemma GoodStaysShut(w: World, e: Event, g: int)
    requires Guard(w, e) && g < w.nextId && Shut(w, g)
    ensures Shut(Apply(w, e), g)
  {
    MissingGoodsStay(w, e);
    TimePasses(w, e);
  }

  lemma ShutMeansNoCheck(w: World, p: Pair)
    requires Shut(w, p.good)
    ensures !Enabled(w, CheckGrab(p))
  {
  }

  lemma InsideComesFrom(w: World, e: Event, p: Pair)
    requires Enabled(w, e) && Inside(Apply(w, e), p)
    ensures Inside(w, p) || e == CheckGrab(p)
  {
    if p in RedisAfter(w, e).members {
      MemberComesFrom(w, e, p);
    } else {
      var t :| t in Apply(w, e).tasks && IsGrab(t) && t.p == p;
      if t !in w.tasks {
        GrabComesFrom(w, e, t);
      }
    }
  }

  lemma StepAdmitsNobody(w: World, h: History, e: Event, w': World, h': History, p: Pair)
    requires Known(w, h) && Takes(w, h, e, w', h') && p.good < w.nextId && Shut(w, p.good)
    ensures p.good < w'.nextId && Shut(w', p.good) && (Inside(w', p) ==> Inside(w, p))
  {
    Taken(w, h, e, w', h');
    IdsGrow(w, e);
    GoodStaysShut(w, e, p.good);
    ShutMeansNoCheck(w, p);
    if Inside(w', p) {
      InsideComesFrom(w, e, p);
    }
  }

  /** Once a good has left recruiting or is past its deadline, it takes in nobody who had not
      passed the checks by then. */
  lemma {:induction false} ShutGoodsAdmitNobody(start: Run, r: Run, p: Pair)
    requires Valid(r) && Continues(r, start)
    requires p.good in Log(start).terms && Shut(Now(start), p.good)
    ensures Shut(Now(r), p.good) && p.good < Now(r).nextId
    ensures Inside(Now(r), p) ==> Inside(Now(start), p)
    decreases r
  {
    if r == start {
      RunsKeepInv(start);
    } else {
      ShutGoodsAdmitNobody(start, r.before, p);
      RunsKeepInv(r.before);
      StepAdmitsNobody(Now(r.before), Log(r.before), r.event, r.now, r.log, p);
    }
  }

  // ---- Every grab can be brought to its order -----------------------------------------------------

  /** Steps of the clock, the reconciler, the broker and the consumer, none of which fails. */
  predicate Recovers(e: Event)
  {
    || e.Tick? || e.ListMark? || (e.Republish? && e.done && e.seen) || e.Deliver? || e.FindGood? || e.FindUser?
    || (e.CommitCreate? && e.seen)
  }

  /** r continues `start` by such steps alone. */
  predicate RecoveredFrom(start: Run, r: Run)
  {
    r == start || (r.Then? && Recovers(r.event) && RecoveredFrom(start, r.before))
  }

  lemma Recover(start: Run, r: Run, e: Event) returns (r': Run)
    requires Valid(r) && RecoveredFrom(start, r) && Recovers(e) && Enabled(Now(r), e)
    ensures Valid(r') && RecoveredFrom(start, r') && Now(r') == Apply(Now(r), e)
  {
    r' := OneMore(r, e);
  }

  lemma MarkLeadsOn(w: World, p: Pair)
    requires MarkExpired(w.redis, p, w.now)
    ensures var listed := Apply(w, ListMark(p));
            && Enabled(w, ListMark(p)) && listed == w.(tasks := listed.tasks) && Resend(p) in listed.tasks
  {
  }

  lemma ResendLeadsOn(w: World, p: Pair)
    requires Resend(p) in w.tasks
    ensures var e := Republish(p, true, true);
            Enabled(w, e) && Apply(w, e) == w.(queue := w.queue + multiset{p}, tasks := Apply(w, e).tasks)
  {
  }

  /** The reconciler can put the message of every member without an order back into the queue. */
  lemma MessageCanBeResent(r: Run, p: Pair) returns (r': Run)
    requires Valid(r) && p in Now(r).redis.pending
    ensures Valid(r') && RecoveredFrom(r, r') && p in Now(r').queue
    ensures Now(r').db == Now(r).db && Now(r').users == Now(r).users
  {
    var later := Now(r).now + 31 * SECOND;
    MarksAndClosesFallDue(r, p, 0, later);
    r' := Recover(r, r, Tick(later));
    MarkLeadsOn(Now(r'), p);
    r' := Recover(r, r', ListMark(p));
    ResendLeadsOn(Now(r'), p);
    r' := Recover(r, r', Republish(p, true, true));
  }

  lemma MessageCanReachInsert(r: Run, p: Pair) returns (r': Run)
    requires Valid(r) && p in Now(r).queue && p.good in Now(r).db.goods && p.user in Now(r).users
    ensures Valid(r') && RecoveredFrom(r, r') && InsertOrder(p) in Now(r').tasks && Now(r').db == Now(r).db
  {
    DeliveryLeadsOn(Now(r), p);
    r' := Recover(r, r, Deliver(p));
    LookUpsLeadOn(Now(r'), p);
    r' := Recover(r, r', FindGood(p));
    r' := Recover(r, r', FindUser(p));
  }

  lemma InsertLeavesOrder(w: World, p: Pair, o: int)
    requires InsertOrder(p) in w.tasks && !T.Conflicts(w.db, o, p) && w.nextId <= o
    ensures var e := CommitCreate(p, o, true); Enabled(w, e) && HasOrder(DbAfter(w, e), p)
  {
    assert DbAfter(w, CommitCreate(p, o, true)).orders[o].Key() == p;
  }

  lemma OrderCanBeInserted(r: Run, p: Pair) returns (r': Run)
    requires Valid(r) && InsertOrder(p) in Now(r).tasks && !HasOrder(Now(r).db, p)
    ensures Valid(r') && RecoveredFrom(r, r') && HasOrder(Now(r').db, p)
  {
    var o := Now(r).nextId;
    FreshIdIsFree(r, p);
    InsertLeavesOrder(Now(r), p, o);
    r' := Recover(r, r, CommitCreate(p, o, true));
  }

  lemma {:induction false} RecoveredTwice(a: Run, b: Run, c: Run)
    requires RecoveredFrom(a, b) && RecoveredFrom(b, c)
    ensures RecoveredFrom(a, c)
    decreases c
  {
    if b != c {
      RecoveredTwice(a, b, c.before);
    }
  }

  /** From every reachable state, whatever was lost before, each member whose good and user
      exist can still come to its order, by the clock, the reconciler and the consumer alone. */
  lemma EveryGrabCanComeToItsOrder(r: Run, p: Pair) returns (r': Run)
    requires Valid(r) && p in Now(r).redis.members && p.good in Now(r).db.goods && p.user in Now(r).users
    ensures Valid(r') && RecoveredFrom(r, r') && HasOrder(Now(r').db, p)
  {
    if HasOrder(Now(r).db, p) {
      return r;
    }
    EveryGrabIsRemembered(r, p);
    var resent := MessageCanBeResent(r, p);
    var underway := MessageCanReachInsert(resent, p);
    r' := OrderCanBeInserted(underway, p);
    RecoveredTwice(r, resent, underway);
    RecoveredTwice(r, underway, r');
  }

  /** A mark is renewed after a republish that was heard, once for each, and for no other reason. */
  lemma RenewalsFollowPublishing(r: Run, p: Pair)
    requires Valid(r) && r.Then? && !r.event.Crash? && !r.event.RenewMarkOf?
    ensures r.now.tasks[Renew(p)] ==
            Now(r.before).tasks[Renew(p)] + Bit(r.event.Republish? && r.event.p == p && r.event.seen)
  {
    RenewalStep(Now(r.before), Log(r.before), r.event, r.now, r.log, p);
  }

  lemma RenewalStep(w: World, h: History, e: Event, w': World, h': History, p: Pair)
    requires Takes(w, h, e, w', h') && !e.Crash? && !e.RenewMarkOf?
    ensures w'.tasks[Renew(p)] == w.tasks[Renew(p)] + Bit(e.Republish? && e.p == p && e.seen)
  {
    Taken(w, h, e, w', h');
    TaskCount(w, e, Renew(p));
    RenewalStarts(w, e, p);
  }

  lemma RenewalStarts(w: World, e: Event, p: Pair)
    requires !e.Crash? && !e.RenewMarkOf?
    ensures Renew(p) in Started(w, e) <==> e.Republish? && e.p == p && e.seen
    ensures Renew(p) !in Carried(e)
  {
  }

  // ---- Every scheduled order can be closed ----------------------------------------------------------

  lemma Continue(start: Run, r: Run, e: Event) returns (r': Run)
    requires Valid(r) && Continues(r, start) && Enabled(Now(r), e)
    ensures Valid(r') && Continues(r', start) && Now(r') == Apply(Now(r), e)
  {
    r' := OneMore(r, e);
  }

  lemma DueLeadsOn(w: World, o: int)
    requires CloseDue(w.redis, o, w.now)
    ensures var listed := Apply(w, ListClose(o));
            && Enabled(w, ListClose(o)) && listed == w.(tasks := listed.tasks) && Close(o) in listed.tasks
  {
  }

  lemma CloseLeadsOn(w: World, o: int)
    requires Close(o) in w.tasks && T.CanLeavePending(w.db, o)
    ensures var e := CommitClose(o, true);
            && Enabled(w, e) && HasStatus(DbAfter(w, e), o, Closed) && DbAfter(w, e).orders[o].closedAt == w.now
            && ReturnSlot(o) in Apply(w, e).tasks
  {
  }

  /** From every reachable state, a scheduled order that nobody pays or cancels can be closed
      half an hour and a second later, with its slot about to go back. */
  lemma ScheduledOrderCanBeClosed(r: Run, o: int) returns (r': Run)
    requires Valid(r) && o in Now(r).redis.closeAt && HasStatus(Now(r).db, o, PendingPay)
    ensures Valid(r') && Continues(r', r) && Now(r').now == Now(r).now + 1801 * SECOND
    ensures HasStatus(Now(r').db, o, Closed) && Now(r').db.orders[o].closedAt == Now(r').now
    ensures ReturnSlot(o) in Now(r').tasks
  {
    var later := Now(r).now + 1801 * SECOND;
    MarksAndClosesFallDue(r, Pair(0, 0), o, later);
    r' := Continue(r, r, Tick(later));
    DueLeadsOn(Now(r'), o);
    r' := Continue(r, r', ListClose(o));
    CloseLeadsOn(Now(r'), o);
    r' := Continue(r, r', CommitClose(o, true));
  }

  lemma RetiringLeadsOn(w: World, o: int)
    requires Close(o) in w.tasks && o in w.db.orders && w.db.orders[o].status != PendingPay
    ensures var e := CommitClose(o, true);
            && Enabled(w, e) && DropClose(o) in Apply(w, e).tasks && DbAfter(w, e) == w.db
  {
  }

  lemma RemovalLeadsOn(w: World, o: int)
    requires DropClose(o) in w.tasks
    ensures Enabled(w, RemoveClose(o)) && o !in Apply(w, RemoveClose(o)).redis.closeAt
    ensures DbAfter(w, RemoveClose(o)) == w.db
  {
  }

  /** From every reachable state, the entry of an order that has ended can be removed, without
      touching a table: pages do not fill up with stale entries. */
  lemma StaleEntryCanBeRetired(r: Run, o: int) returns (r': Run)
    requires Valid(r) && o in Now(r).redis.closeAt && o in Now(r).db.orders
    requires Now(r).db.orders[o].status != PendingPay
    ensures Valid(r') && Continues(r', r) && o !in Now(r').redis.closeAt && Now(r').db == Now(r).db
  {
    var later := Now(r).now + 1801 * SECOND;
    MarksAndClosesFallDue(r, Pair(0, 0), o, later);
    r' := Continue(r, r, Tick(later));
    DueLeadsOn(Now(r'), o);
    r' := Continue(r, r', ListClose(o));
    RetiringLeadsOn(Now(r'), o);
    r' := Continue(r, r', CommitClose(o, true));
    RemovalLeadsOn(Now(r'), o);
    r' := Continue(r, r', RemoveClose(o));
  }

  lemma ChoreLeadsOn(w: World, o: int)
    requires EnqueueClose(o) in w.tasks
    ensures var e := AddClose(o, true, false); Enabled(w, e) && o in Apply(w, e).redis.closeAt && Apply(w, e).db == w.db
  {
  }

  lemma DebtLeadsOn(w: World, o: int)
    requires OweClose(o) in w.owed
    ensures var e := RepayClose(o, true, false);
            Enabled(w, e) && o in Apply(w, e).redis.closeAt && Apply(w, e).db == w.db
  {
  }

  lemma DueOrderCanBeScheduled(r: Run, o: int) returns (r': Run)
    requires Valid(r) && CloseIsDue(Now(r), o)
    ensures Valid(r') && Continues(r', r) && o in Now(r').redis.closeAt && Now(r').db == Now(r).db
  {
    if o in Now(r).redis.closeAt {
      r' := r;
    } else if EnqueueClose(o) in Now(r).tasks {
      ChoreLeadsOn(Now(r), o);
      r' := Continue(r, r, AddClose(o, true, false));
    } else {
      DebtLeadsOn(Now(r), o);
      r' := Continue(r, r, RepayClose(o, true, false));
    }
  }

  lemma {:induction false} ContinuesTwice(a: Run, b: Run, c: Run)
    requires Continues(b, a) && Continues(c, b)
    ensures Continues(c, a)
    decreases c
  {
    if b != c {
      ContinuesTwice(a, b, c.before);
    }
  }

  /** Unless its run has lost it, an order waiting for payment can still be closed. */
  lemma EveryPendingOrderCanBeClosed(r: Run, o: int) returns (r': Run)
    requires Valid(r) && HasStatus(Now(r).db, o, PendingPay) && !LostClose(r, o)
    ensures Valid(r') && Continues(r', r) && HasStatus(Now(r').db, o, Closed) && ReturnSlot(o) in Now(r').tasks
  {
    PendingOrdersAreScheduled(r, o);
    var scheduled := DueOrderCanBeScheduled(r, o);
    r' := ScheduledOrderCanBeClosed(scheduled, o);
    ContinuesTwice(r, scheduled, r');
  }
}
