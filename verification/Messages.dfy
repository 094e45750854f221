/**
 Messages and notices: no message for the order consumer vanishes, and every notice
 reaches its owner unless its run lost it in one of the named ways.
 */
module Messages {
  import opened Model
  import opened RedisKeys
  import opened Protocol
  import opened Invariants
  import opened Safety
  import T = OrderTables

  // ---- Create messages ---------------------------------------------------------------------

  /** Handlers of the order queue that hold an unacknowledged message for p. */
  function Held(w: World, p: Pair): int
  {
    w.tasks[ReadGood(p)] + w.tasks[ReadUser(p)] + w.tasks[InsertOrder(p)] +
    w.tasks[ClearPending(p)] + w.tasks[AckMessage(p)] + w.tasks[NackMessage(p)]
  }

  function Holding(ts: set<Task>, p: Pair): int
  {
    Bit(ReadGood(p) in ts) + Bit(ReadUser(p) in ts) + Bit(InsertOrder(p) in ts) +
    Bit(ClearPending(p) in ts) + Bit(AckMessage(p) in ts) + Bit(NackMessage(p) in ts)
  }

  lemma HeldCounts(w: World, e: Event, p: Pair)
    requires forall t :: t in Carried(e) ==> t in w.tasks
    ensures Held(Apply(w, e), p) == Held(w, p) - Holding(Carried(e), p) + Holding(Started(w, e), p)
  {
    TaskCount(w, e, ReadGood(p));
    TaskCount(w, e, ReadUser(p));
    TaskCount(w, e, InsertOrder(p));
    TaskCount(w, e, ClearPending(p));
    TaskCount(w, e, AckMessage(p));
    TaskCount(w, e, NackMessage(p));
  }

  /** A message enters the queue. */
  predicate Enters(e: Event, p: Pair)
  {
    (e == PublishGrab(p, true)) || (e.Republish? && e.p == p && e.done) || e == Duplicate(p)
  }

  /** A message leaves for good. */
  predicate Leaves(e: Event, p: Pair)
  {
    e == Ack(p) || e == Lose(p)
  }

  /** Events of the consumer, each of which has a message in hand before and after. */
  predicate PassesOn(e: Event)
  {
    e.FindGood? || e.FindUser? || e.CommitCreate? || e.RemoveMark?
  }

  lemma PassedOn(w: World, e: Event, p: Pair)
    requires PassesOn(e)
    ensures Holding(Carried(e), p) == Bit(e.p == p) == Holding(Started(w, e), p)
  {
  }

  lemma TakenUp(w: World, e: Event, p: Pair)
    requires e.Deliver? || e.Ack? || e.Crash?
    ensures Holding(Carried(e), p) == Bit(e == Ack(p) || PutsBack(e, p))
    ensures Holding(Started(w, e), p) == Bit(e == Deliver(p))
  {
  }

  lemma LeftAlone(w: World, e: Event, p: Pair)
    requires !PassesOn(e) && !e.Deliver? && !e.Ack? && !e.Crash?
    ensures Holding(Carried(e), p) == 0 == Holding(Started(w, e), p)
  {
  }

  function QueueGain(e: Event, p: Pair): int
  {
    if Enters(e, p) || PutsBack(e, p) then 1 else if e == Deliver(p) || e == Lose(p) then -1 else 0
  }

  /** A handler dies, and the broker redelivers what it held. */
  predicate PutsBack(e: Event, p: Pair)
  {
    e.Crash? && HoldsMessage(e.task) && e.task.p == p
  }

  lemma QueueGrows(w: World, e: Event, p: Pair)
    requires !e.Lose? && !e.Deliver?
    ensures QueueAfter(w, e)[p] == w.queue[p] + Bit(Enters(e, p) || PutsBack(e, p))
  {
    if e.Crash? {
      CrashGrows(w, e, p);
    }
  }

  lemma CrashGrows(w: World, e: Event, p: Pair)
    requires e.Crash?
    ensures QueueAfter(w, e)[p] == w.queue[p] + Bit(PutsBack(e, p)) && !Enters(e, p)
  {
  }

  lemma QueueShrinks(w: World, e: Event, p: Pair)
    requires (e.Lose? || e.Deliver?) && e.p in w.queue
    ensures QueueAfter(w, e)[p] == w.queue[p] - Bit(e.p == p) && !Enters(e, p) && !PutsBack(e, p)
  {
  }

  lemma QueueCounts(w: World, e: Event, p: Pair)
    requires e.Lose? || e.Deliver? ==> e.p in w.queue
    ensures QueueAfter(w, e)[p] == w.queue[p] + QueueGain(e, p)
  {
    if e.Lose? || e.Deliver? {
      QueueShrinks(w, e, p);
    } else {
      QueueGrows(w, e, p);
    }
  }

  lemma HandsCount(w: World, e: Event, p: Pair)
    ensures Holding(Started(w, e), p) - Holding(Carried(e), p) + QueueGain(e, p) ==
            Bit(Enters(e, p)) - Bit(Leaves(e, p))
  {
    if PassesOn(e) {
      PassedOn(w, e, p);
    } else if e.Deliver? || e.Ack? || e.Crash? {
      TakenUp(w, e, p);
    } else {
      LeftAlone(w, e, p);
    }
  }

  lemma MessageIsThere(w: World, e: Event)
    requires Enabled(w, e)
    ensures e.Lose? || e.Deliver? ==> e.p in w.queue
    ensures forall t :: t in Carried(e) ==> t in w.tasks
  {
  }

  lemma MessagesStay(w: World, h: History, e: Event, w': World, h': History, p: Pair)
    requires Takes(w, h, e, w', h')
    ensures w'.queue[p] + Held(w', p) == w.queue[p] + Held(w, p) + Bit(Enters(e, p)) - Bit(Leaves(e, p))
  {
    Taken(w, h, e, w', h');
    MessageIsThere(w, e);
    HeldCounts(w, e, p);
    QueueCounts(w, e, p);
    HandsCount(w, e, p);
  }

  /** Messages for p that were ever published, republished or duplicated. */
  function Published(r: Run, p: Pair): int
  {
    if r.Begin? then 0 else Published(r.before, p) + Bit(Enters(r.event, p))
  }

  /** Messages for p that were acknowledged, or lost by the broker. */
  function Consumed(r: Run, p: Pair): int
  {
    if r.Begin? then 0 else Consumed(r.before, p) + Bit(Leaves(r.event, p))
  }

  /** Every message that was published is acknowledged, lost by the broker, in the queue, or in
      the hands of a consumer: none is dropped on a failure, a nack or a crash. */
  lemma {:induction false} MessagesAreConserved(r: Run, p: Pair)
    requires Valid(r)
    ensures Published(r, p) == Consumed(r, p) + Now(r).queue[p] + Held(Now(r), p)
  {
    match r
    case Begin(_) =>
    case Then(before, e, now, log) =>
      MessagesAreConserved(before, p);
      MessagesStay(Now(before), Log(before), e, now, log, p);
  }

  // ---- Notices about one order -------------------------------------------------------------------

  predicate AboutOrder(c: Category)
  {
    c == TellPendingPay || c == TellPaid || c == TellCancelled || c == TellClosed
  }

  /** The notice is true: it tells the owner of the order what has become of it. */
  predicate IsTrue(db: Db, n: Notice)
  {
    && n.ref in db.orders && db.orders[n.ref].user == n.user
    && match n.category
       case TellPendingPay => true
       case TellPaid => db.orders[n.ref].status == Paid
       case TellCancelled => db.orders[n.ref].status == Cancelled
       case TellClosed => db.orders[n.ref].status == Closed
       case _ => false
  }

  /** The call that makes the notice true. */
  predicate Decides(w: World, e: Event, n: Notice)
  {
    match n.category
    case TellPendingPay => Creates(w, e, n.ref) && e.p.user == n.user
    case TellPaid => e.CommitPay? && e.order == n.ref && T.CanPay(w.db, n.ref, e.user) && Owns(w, n)
    case TellCancelled => e.CommitCancel? && e.order == n.ref && T.CanCancel(w.db, n.ref, e.user) && Owns(w, n)
    case TellClosed => e.CommitClose? && e.order == n.ref && T.CanLeavePending(w.db, n.ref) && Owns(w, n)
    case _ => false
  }

  predicate Owns(w: World, n: Notice)
  {
    n.ref in w.db.orders && w.db.orders[n.ref].user == n.user
  }

  /** Where a notice can be: still to be published, in the queue, owed, or stored. */
  function Copies(w: World, n: Notice): int
  {
    w.tasks[Tell(n)] + w.mail[n] + w.owed[OweNotice(n)] + Bit(n in w.inbox.Values)
  }

  /** The ways to lose a notice: the commit it tells of is not heard, or the last copy goes
      without another: its handler dies, neither publishing nor the compensation row takes
      effect, the broker loses it, or the row is given up. */
  predicate LosesNotice(w: World, e: Event, n: Notice)
  {
    || (Decides(w, e, n) && !e.seen)
    || (Copies(w, n) == 1 && (e == Crash(Tell(n)) || e == Publish(n, false, false) || e == LoseMail(n) ||
                              e == RepayNotice(n, false, false)))
  }

  predicate LostNotice(r: Run, n: Notice)
  {
    r.Then? && (LostNotice(r.before, n) || LosesNotice(Now(r.before), r.event, n))
  }

  lemma TellIsDone(e: Event, n: Notice)
    ensures Tell(n) in Carried(e) <==> e == Crash(Tell(n)) || (e.Publish? && e.n == n)
  {
  }

  lemma TellIsBegun(w: World, e: Event, n: Notice)
    requires AboutOrder(n.category) && (e.Expand? ==> !AboutOrder(e.category))
    ensures Tell(n) in Started(w, e) <==> Decides(w, e, n) && e.seen
  {
  }

  lemma MailCounts(w: World, e: Event, n: Notice)
    requires (e.LoseMail? || e.Store?) ==> e.n in w.mail
    ensures MailAfter(w, e)[n] ==
            w.mail[n] + Bit((e.Publish? || e.RepayNotice?) && e.n == n && e.done)
                      - Bit(e == LoseMail(n) || (e.Store? && e.n == n && !e.keep))
  {
  }

  function Incurred(e: Event, n: Notice): int
  {
    if e.Publish? && e.n == n && e.owe then 1
    else if e.RepayNotice? && e.n == n && !e.keep then -1
    else 0
  }

  lemma DebtsMade(w: World, e: Event, n: Notice)
    requires !e.RepayNotice?
    ensures OwedAfter(w, e)[OweNotice(n)] == w.owed[OweNotice(n)] + Bit(e.Publish? && e.n == n && e.owe)
  {
  }

  lemma DebtsOfNotice(w: World, e: Event, n: Notice)
    requires e.RepayNotice? ==> OweNotice(e.n) in w.owed
    ensures OwedAfter(w, e)[OweNotice(n)] == w.owed[OweNotice(n)] + Incurred(e, n)
  {
    if e.RepayNotice? {
      assert OwedAfter(w, e) == if e.keep then w.owed else w.owed - multiset{OweNotice(e.n)};
    } else {
      DebtsMade(w, e, n);
    }
  }

  lemma OneMoreValue<K, V>(m: map<K, V>, k: K, v: V)
    requires k !in m
    ensures m[k := v].Values == m.Values + {v}
  {
    forall x | x in m.Values + {v} ensures x in m[k := v].Values {
      if x == v {
        assert m[k := v][k] == v;
      } else {
        var j :| j in m && m[j] == x;
        assert m[k := v][j] == x;
      }
    }
  }

  lemma InboxCounts(w: World, e: Event, n: Notice)
    requires e.Store? ==> e.id !in w.inbox
    ensures n in InboxAfter(w, e).Values <==> n in w.inbox.Values || (e.Store? && e.n == n)
  {
    if e.Store? {
      OneMoreValue(w.inbox, e.id, e.n);
    }
  }

  function Gain(w: World, e: Event, n: Notice): int
  {
    Bit(Decides(w, e, n) && e.seen) - Bit(EndsTelling(e, n)) + Bit(PutsInMail(e, n)) - Bit(TakesFromMail(e, n)) +
    Incurred(e, n) + Bit(e.Store? && e.n == n && n !in w.inbox.Values)
  }

  predicate EndsTelling(e: Event, n: Notice) { e == Crash(Tell(n)) || (e.Publish? && e.n == n) }

  predicate PutsInMail(e: Event, n: Notice) { (e.Publish? || e.RepayNotice?) && e.n == n && e.done }

  predicate TakesFromMail(e: Event, n: Notice) { e == LoseMail(n) || (e.Store? && e.n == n && !e.keep) }

  /** What the events that handle notices start from. */
  predicate Handles(w: World, e: Event)
  {
    && (forall t :: t in Carried(e) ==> t in w.tasks)
    && ((e.LoseMail? || e.Store?) ==> e.n in w.mail)
    && (e.RepayNotice? ==> OweNotice(e.n) in w.owed)
    && (e.Store? ==> e.id !in w.inbox)
    && (e.Expand? ==> !AboutOrder(e.category))
  }

  lemma CopiesMove(w: World, e: Event, n: Notice)
    requires AboutOrder(n.category) && Handles(w, e)
    ensures Copies(Apply(w, e), n) == Copies(w, n) + Gain(w, e, n)
  {
    TaskCount(w, e, Tell(n));
    TellIsDone(e, n);
    TellIsBegun(w, e, n);
    MailCounts(w, e, n);
    DebtsOfNotice(w, e, n);
    InboxCounts(w, e, n);
  }

  lemma GroupNoticesOnly(w: World, h: History, e: Event)
    requires TasksOk(w, h) && e.Expand? && TellMembers(e.good, e.category) in w.tasks
    ensures !AboutOrder(e.category)
  {
    assert TaskOk(w, h, TellMembers(e.good, e.category));
  }

  lemma StoredIdIsFresh(w: World, h: History, e: Event)
    requires Guard(w, e) && QueuesOk(w, h) && e.Store?
    ensures e.id !in w.inbox && e.n in w.mail
  {
  }

  lemma EventsHandle(w: World, h: History, e: Event)
    requires Enabled(w, e) && TasksOk(w, h) && QueuesOk(w, h)
    ensures Handles(w, e)
  {
    if e.Expand? {
      GroupNoticesOnly(w, h, e);
    } else if e.Store? {
      StoredIdIsFresh(w, h, e);
    }
  }

  /** An event that takes a copy away needs one to be there. */
  lemma CopyIsThere(w: World, e: Event, n: Notice)
    requires Handles(w, e) && AboutOrder(n.category)
    ensures EndsTelling(e, n) || TakesFromMail(e, n) || (e.RepayNotice? && e.n == n) ==> Copies(w, n) >= 1
    ensures e.Store? && e.n == n && n in w.inbox.Values ==> Copies(w, n) >= 2
  {
    TellIsDone(e, n);
  }

  lemma TruthMoves(w: World, e: Event, n: Notice)
    requires AboutOrder(n.category)
    ensures IsTrue(DbAfter(w, e), n) <==> IsTrue(w.db, n) || Decides(w, e, n)
    ensures Decides(w, e, n) ==> !IsTrue(w.db, n)
  {
    OrdersGrowInStep(w, e);
  }

  ghost predicate NoticeOk(w: World, n: Notice, lost: bool)
  {
    (lost ==> IsTrue(w.db, n)) && (Copies(w, n) > 0 <==> IsTrue(w.db, n) && !lost)
  }

  lemma DecisionGains(w: World, e: Event, n: Notice)
    requires Decides(w, e, n)
    ensures Gain(w, e, n) == Bit(e.seen) && (LosesNotice(w, e, n) <==> !e.seen)
  {
  }

  lemma OtherGains(w: World, e: Event, n: Notice)
    requires !Decides(w, e, n) && Copies(w, n) >= 0
    requires EndsTelling(e, n) || TakesFromMail(e, n) || (e.RepayNotice? && e.n == n) ==> Copies(w, n) >= 1
    requires e.Store? && e.n == n && n in w.inbox.Values ==> Copies(w, n) >= 2
    ensures LosesNotice(w, e, n) ==> Copies(w, n) > 0
    ensures Copies(w, n) + Gain(w, e, n) > 0 <==>
            (Copies(w, n) > 0 && !LosesNotice(w, e, n)) || (e.Store? && e.n == n)
    ensures e.Store? && e.n == n ==> Copies(w, n) + Gain(w, e, n) > 0
  {
  }

  lemma NoticeTurns(w: World, e: Event, w': World, n: Notice, lost: bool)
    requires NoticeOk(w, n, lost) && AboutOrder(n.category) && Handles(w, e)
    requires Copies(w', n) == Copies(w, n) + Gain(w, e, n)
    requires IsTrue(w'.db, n) <==> IsTrue(w.db, n) || Decides(w, e, n)
    requires Decides(w, e, n) ==> !IsTrue(w.db, n)
    ensures NoticeOk(w', n, lost || LosesNotice(w, e, n))
  {
    CopyIsThere(w, e, n);
    if Decides(w, e, n) {
      DecisionGains(w, e, n);
    } else {
      OtherGains(w, e, n);
    }
  }

  lemma NoticeStays(w: World, e: Event, n: Notice, lost: bool)
    requires NoticeOk(w, n, lost) && AboutOrder(n.category) && Handles(w, e)
    ensures NoticeOk(Apply(w, e), n, lost || LosesNotice(w, e, n))
  {
    CopiesMove(w, e, n);
    TruthMoves(w, e, n);
    NoticeTurns(w, e, Apply(w, e), n, lost);
  }

  lemma StepKeepsNotice(w: World, h: History, e: Event, w': World, h': History, n: Notice, lost: bool)
    requires TasksOk(w, h) && QueuesOk(w, h) && Takes(w, h, e, w', h')
    requires NoticeOk(w, n, lost) && AboutOrder(n.category)
    ensures NoticeOk(w', n, lost || LosesNotice(w, e, n))
  {
    Taken(w, h, e, w', h');
    EventsHandle(w, h, e);
    NoticeStays(w, e, n, lost);
  }

  /** A notice about an order is on its way or stored exactly when it is true, which means
      above all addressed to the owner, and its run has not lost it in one of the named ways. */
  lemma {:induction false} TrueNoticesArrive(r: Run, n: Notice)
    requires Valid(r) && AboutOrder(n.category)
    ensures Copies(Now(r), n) > 0 <==> IsTrue(Now(r).db, n) && !LostNotice(r, n)
    ensures LostNotice(r, n) ==> IsTrue(Now(r).db, n)
  {
    match r
    case Begin(_) =>
    case Then(before, e, now, log) =>
      TrueNoticesArrive(before, n);
      RunsKeepInv(before);
      StepKeepsNotice(Now(before), Log(before), e, now, log, n, LostNotice(before, n));
  }

  // ---- Notices to everybody concerned ---------------------------------------------------------------

  /** Those a success or failure concerns: whoever has an order, and the publisher. */
  ghost predicate Concerned(db: Db, h: History, n: Notice)
  {
    HasOrder(db, Pair(n.ref, n.user)) || (n.ref in h.terms && h.terms[n.ref].publisher == n.user)
  }

  ghost predicate Addressed(w: World, h: History)
  {
    && (forall n :: IsUnderWay(w, n) && !AboutOrder(n.category) ==> Concerned(w.db, h, n))
    && (forall i :: i in w.inbox && !AboutOrder(w.inbox[i].category) ==> Concerned(w.db, h, w.inbox[i]))
  }

  lemma LettersAreAddressed(w: World, h: History, e: Event, n: Notice)
    requires T.DbInv(w.db) && Known(w, h) && Tell(n) in Started(w, e) && !AboutOrder(n.category)
    ensures Concerned(w.db, h, n)
  {
    var p := Pair(n.ref, n.user);
    if p in w.db.signups {
      assert HasLiveOrder(w.db, p);
      var o :| o in w.db.orders && w.db.orders[o].Key() == p && w.db.orders[o].IsLive();
      assert HasOrder(w.db, p);
    }
  }

  lemma ConcernStays(w: World, h: History, e: Event, n: Notice)
    requires Known(w, h) && Guard(w, e) && Concerned(w.db, h, n)
    ensures Concerned(DbAfter(w, e), Record(h, w, e), n)
  {
    OrdersGrowInStep(w, e);
    TermsStay(w, h, e);
    if HasOrder(w.db, Pair(n.ref, n.user)) {
      var o :| o in w.db.orders && w.db.orders[o].Key() == Pair(n.ref, n.user);
      assert DbAfter(w, e).orders[o].Key() == Pair(n.ref, n.user);
    }
  }

  /** Somewhere a copy that is not stored yet. */
  predicate IsUnderWay(w: World, n: Notice)
  {
    Tell(n) in w.tasks || n in w.mail || OweNotice(n) in w.owed
  }

  lemma MailComesFrom(w: World, e: Event, n: Notice)
    requires Enabled(w, e) && n in MailAfter(w, e)
    ensures IsUnderWay(w, n)
  {
    TellIsDone(e, n);
  }

  lemma DebtComesFrom(w: World, e: Event, n: Notice)
    requires Enabled(w, e) && OweNotice(n) in OwedAfter(w, e)
    ensures IsUnderWay(w, n)
  {
    TellIsDone(e, n);
  }

  lemma NoticeComesFrom(w: World, e: Event, n: Notice)
    requires Enabled(w, e) && IsUnderWay(Apply(w, e), n)
    ensures IsUnderWay(w, n) || Tell(n) in Started(w, e)
  {
    if n in MailAfter(w, e) {
      MailComesFrom(w, e, n);
    } else if OweNotice(n) in OwedAfter(w, e) {
      DebtComesFrom(w, e, n);
    }
  }

  lemma StoredComesFrom(w: World, e: Event, i: int)
    requires Enabled(w, e) && i in InboxAfter(w, e)
    ensures (i in w.inbox && InboxAfter(w, e)[i] == w.inbox[i]) || InboxAfter(w, e)[i] in w.mail
  {
  }

  lemma StepKeepsAddressed(w: World, h: History, e: Event, w': World, h': History)
    requires T.DbInv(w.db) && Known(w, h) && Addressed(w, h) && Takes(w, h, e, w', h')
    ensures Addressed(w', h')
  {
    Taken(w, h, e, w', h');
    forall n | IsUnderWay(w', n) && !AboutOrder(n.category) ensures Concerned(w'.db, h', n) {
      NoticeComesFrom(w, e, n);
      if Tell(n) in Started(w, e) {
        LettersAreAddressed(w, h, e, n);
      }
      ConcernStays(w, h, e, n);
    }
    forall i | i in w'.inbox && !AboutOrder(w'.inbox[i].category) ensures Concerned(w'.db, h', w'.inbox[i]) {
      StoredComesFrom(w, e, i);
      ConcernStays(w, h, e, w'.inbox[i]);
    }
  }

  lemma {:induction false} NoticesAreAddressed(r: Run)
    requires Valid(r)
    ensures Addressed(Now(r), Log(r))
  {
    match r
    case Begin(_) =>
    case Then(before, e, now, log) =>
      NoticesAreAddressed(before);
      RunsKeepInv(before);
      StepKeepsAddressed(Now(before), Log(before), e, now, log);
  }

  /** Whatever is stored was meant for its reader: a notice about an order for the owner, one
      about a good for somebody who ordered it, or for its publisher. */
  lemma ReadersAreConcerned(r: Run, i: int)
    requires Valid(r) && i in Now(r).inbox
    ensures var n := Now(r).inbox[i];
            if AboutOrder(n.category) then IsTrue(Now(r).db, n) else Concerned(Now(r).db, Log(r), n)
  {
    var n := Now(r).inbox[i];
    if AboutOrder(n.category) {
      TrueNoticesArrive(r, n);
      assert n in Now(r).inbox.Values;
    } else {
      NoticesAreAddressed(r);
    }
  }

  /** Telling a group tells everybody who has a live order, and the publisher. */
  lemma GroupsAreToldWhole(r: Run, u: int)
    requires Valid(r) && r.Then? && r.event.Expand?
    requires var g, was := r.event.good, Now(r.before);
             HasLiveOrder(was.db, Pair(g, u)) || (g in was.db.goods && was.db.goods[g].publisher == u)
    ensures Tell(Notice(u, r.event.category, r.event.good)) in r.now.tasks
  {
    RunsKeepInv(r.before);
    GroupStep(Now(r.before), Log(r.before), r.event, r.now, r.log, u);
  }

  lemma GroupStep(w: World, h: History, e: Event, w': World, h': History, u: int)
    requires T.DbInv(w.db) && Takes(w, h, e, w', h') && e.Expand?
    requires HasLiveOrder(w.db, Pair(e.good, u)) || (e.good in w.db.goods && w.db.goods[e.good].publisher == u)
    ensures Tell(Notice(u, e.category, e.good)) in w'.tasks
  {
    Taken(w, h, e, w', h');
    if HasLiveOrder(w.db, Pair(e.good, u)) {
      assert Pair(e.good, u) in w.db.signups;
    }
    assert u in Recipients(w, e.good);
    assert Tell(Notice(u, e.category, e.good)) in Started(w, e);
  }

  /** A good that leaves recruiting, by an order that completes it or by the judge, has its
      group told so, unless the caller does not hear of it. */
  lemma VerdictsAreTold(r: Run, g: int)
    requires Valid(r) && r.Then? && g in r.now.db.goods && GoodIs(Now(r.before).db, g, Recruiting)
    requires r.now.db.goods[g].status != Recruiting
    ensures r.event.CommitCreate? || r.event.CommitFailed?
    ensures r.event.seen ==>
              TellMembers(g, if r.now.db.goods[g].status == Failed then TellFailed else TellSucceeded) in r.now.tasks
  {
    RunsKeepInv(r.before);
    VerdictStep(Now(r.before), Log(r.before), r.event, r.now, r.log, g);
  }

  lemma VerdictStep(w: World, h: History, e: Event, w': World, h': History, g: int)
    requires T.DbInv(w.db) && Known(w, h) && Takes(w, h, e, w', h')
    requires g in w'.db.goods && GoodIs(w.db, g, Recruiting) && w'.db.goods[g].status != Recruiting
    ensures e.CommitCreate? || e.CommitFailed?
    ensures e.seen ==>
              TellMembers(g, if w'.db.goods[g].status == Failed then TellFailed else TellSucceeded) in w'.tasks
  {
    Taken(w, h, e, w', h');
    VerdictEvents(w, h, e, g);
    if e.seen {
      VerdictStarts(w, e, g);
    }
  }

  lemma VerdictStarts(w: World, e: Event, g: int)
    requires (e.CommitCreate? || e.CommitFailed?) && e.seen && GoodIs(w.db, g, Recruiting)
    requires g in DbAfter(w, e).goods && DbAfter(w, e).goods[g].status != Recruiting
    ensures var c := if DbAfter(w, e).goods[g].status == Failed then TellFailed else TellSucceeded;
            TellMembers(g, c) in Started(w, e)
  {
  }

  lemma VerdictEvents(w: World, h: History, e: Event, g: int)
    requires T.DbInv(w.db) && Known(w, h) && Guard(w, e)
    requires g in DbAfter(w, e).goods && GoodIs(w.db, g, Recruiting) && DbAfter(w, e).goods[g].status != Recruiting
    ensures e.CommitCreate? || e.CommitFailed?
  {
    if e.CommitSucceeded? {
      T.JudgeKeepsInv(w.db, e.good, w.now);
    }
  }
}
