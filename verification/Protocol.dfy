/**
 The grab-to-order protocol as a state machine.

 Every step is one atomic operation of one store: a Redis command or script, a
 committed MySQL transaction, or a broker action.  What a request handler,
 consumer or scanner has left to do after such an operation is kept as a Task,
 so that any number of them interleave freely, fail at any operation, or crash.
 */
module Protocol {
  import opened Model
  import opened RedisKeys
  import T = OrderTables

  /** What a running handler still has to do. */
  datatype Task =
    // grab request
    | ReadBuyer(p: Pair)
    | TryLock(p: Pair)
    | Locked(p: Pair, token: int)
    | SendGrab(p: Pair)
    | Unlock(good: int, token: int)
    // consumer, holding an unacknowledged message
    | ReadGood(p: Pair)
    | ReadUser(p: Pair)
    | InsertOrder(p: Pair)
    | ClearPending(p: Pair)
    | AckMessage(p: Pair)
    | NackMessage(p: Pair)
    // after a committed create
    | EnqueueClose(order: int)
    // reconciler
    | Resend(p: Pair)
    | Renew(p: Pair)
    // pay, cancel, timeout close
    | Pay(order: int, user: int)
    | Cancel(order: int, user: int)
    | Close(order: int)
    | ReturnSlot(order: int)
    | DropClose(order: int)
    // deadline judgement
    | FailGood(good: int)
    | SucceedGood(good: int)
    // notices
    | TellMembers(good: int, category: Category)
    | Tell(n: Notice)

  /** A row of the compensation table that is still pending. */
  datatype Owed = OweClose(order: int) | OweNotice(n: Notice)

  datatype World = World(
    db: Db,
    users: set<int>,
    redis: Redis,
    queue: multiset<Pair>,     // ready messages of the order queue
    mail: multiset<Notice>,    // ready messages of the notification queue
    inbox: map<int, Notice>,   // notification table
    owed: multiset<Owed>,
    tasks: multiset<Task>,
    nextId: int,               // every id at or above it is fresh
    now: int)

  /** Flags of an event are the choices of the environment: `done` means the
      operation took effect, `seen` that the caller learned of it. */
  datatype Event =
    // environment
    | Tick(time: int)
    | AddUser(user: int)
    | DropUser(user: int)
    | OpenGood(good: int, row: GroupBuy)
    | DropGood(good: int)
    | Crash(task: Task)
    // grab
    | CheckGrab(p: Pair)
    | FindBuyer(p: Pair)
    | AcquireLock(p: Pair, token: int, seen: bool)
    | LockExpires(good: int)
    | RunGrabScript(p: Pair, token: int, done: bool, seen: bool)
    | PublishGrab(p: Pair, done: bool)
    | FreeLock(good: int, token: int)
    // broker
    | Deliver(p: Pair)
    | Duplicate(p: Pair)
    | Lose(p: Pair)
    // consumer
    | FindGood(p: Pair)
    | FindUser(p: Pair)
    | CommitCreate(p: Pair, order: int, seen: bool)
    | RemoveMark(p: Pair, done: bool)
    | Ack(p: Pair)
    | AddClose(order: int, done: bool, owe: bool)
    // reconciler
    | ListMark(p: Pair)
    | Republish(p: Pair, done: bool, seen: bool)
    | RenewMarkOf(p: Pair)
    // order end states
    | CheckPay(order: int, user: int)
    | CommitPay(order: int, user: int, seen: bool)
    | CheckCancel(order: int, user: int)
    | CommitCancel(order: int, user: int, seen: bool)
    | ListClose(order: int)
    | CommitClose(order: int, seen: bool)
    | IncrStock(order: int)
    | RemoveClose(order: int)
    // judge
    | ListFailed(good: int)
    | CommitFailed(good: int, seen: bool)
    | ListSucceeded(good: int)
    | CommitSucceeded(good: int, seen: bool)
    // notices
    | Expand(good: int, category: Category)
    | Publish(n: Notice, done: bool, owe: bool)
    | Store(n: Notice, id: int, keep: bool)
    | LoseMail(n: Notice)
    // compensation
    | RepayClose(order: int, done: bool, keep: bool)
    | RepayNotice(n: Notice, done: bool, keep: bool)

  // ---- Small helpers -----------------------------------------------------------

  predicate TargetMissing(w: World, p: Pair)
  {
    TargetGone(w.db, w.users, p)
  }

  predicate MayGrab(w: World, p: Pair)
  {
    && p.good in w.db.goods
    && w.db.goods[p.good].status == Recruiting
    && w.now <= w.db.goods[p.good].deadline
    && w.db.goods[p.good].publisher != p.user
  }

  predicate HoldsMessage(t: Task)
  {
    t.ReadGood? || t.ReadUser? || t.InsertOrder? || t.ClearPending? || t.AckMessage? || t.NackMessage?
  }

  function If<X>(b: bool, x: X): set<X>
  {
    if b then {x} else {}
  }

  function One<X>(b: bool, x: X): multiset<X>
  {
    if b then multiset{x} else multiset{}
  }

  function GoodOf(w: World, o: int): int
  {
    if o in w.db.orders then w.db.orders[o].good else 0
  }

  /** Statuses a create transaction reports (BecameSucceeded, BecameFull). */
  predicate BecomesSucceeded(db: Db, o: int, p: Pair)
  {
    !T.Conflicts(db, o, p) && T.Completes(db, p.good)
  }

  predicate BecomesFull(db: Db, o: int, p: Pair)
  {
    && !T.Conflicts(db, o, p) && p.good in db.goods
    && db.goods[p.good].status != Full && T.Join(db.goods[p.good]).status == Full
  }

  /** Signed-up users of a good and its publisher. */
  function Recipients(w: World, g: int): set<int>
  {
    SignedUp(w.db, g) + (if g in w.db.goods then {w.db.goods[g].publisher} else {})
  }

  function Letters(w: World, g: int, c: Category): set<Task>
  {
    set u | u in Recipients(w, g) :: Tell(Notice(u, c, g))
  }

  // ---- Enabledness -----------------------------------------------------------------

  /** The piece of work an event carries out; an event of the environment carries out none. */
  function Carried(e: Event): set<Task>
  {
    match e
    case Crash(t) => {t}
    case FindBuyer(p) => {ReadBuyer(p)}
    case AcquireLock(p, _, _) => {TryLock(p)}
    case RunGrabScript(p, token, _, _) => {Locked(p, token)}
    case PublishGrab(p, _) => {SendGrab(p)}
    case FreeLock(g, token) => {Unlock(g, token)}
    case FindGood(p) => {ReadGood(p)}
    case FindUser(p) => {ReadUser(p)}
    case CommitCreate(p, _, _) => {InsertOrder(p)}
    case RemoveMark(p, _) => {ClearPending(p)}
    case Ack(p) => {AckMessage(p)}
    case AddClose(o, _, _) => {EnqueueClose(o)}
    case Republish(p, _, _) => {Resend(p)}
    case RenewMarkOf(p) => {Renew(p)}
    case CommitPay(o, u, _) => {Pay(o, u)}
    case CommitCancel(o, u, _) => {Cancel(o, u)}
    case CommitClose(o, _) => {Close(o)}
    case IncrStock(o) => {ReturnSlot(o)}
    case RemoveClose(o) => {DropClose(o)}
    case CommitFailed(g, _) => {FailGood(g)}
    case CommitSucceeded(g, _) => {SucceedGood(g)}
    case Expand(g, c) => {TellMembers(g, c)}
    case Publish(n, _, _) => {Tell(n)}
    case _ => {}
  }

  /** What else must hold for an event to happen. */
  predicate Guard(w: World, e: Event)
  {
    match e
    case Tick(time) => w.now <= time
    case AddUser(u) => w.nextId <= u
    case OpenGood(g, row) =>
      && w.nextId <= g && row.status == Recruiting && row.current == 0
      && 1 <= row.min <= row.max && w.now < row.deadline
    case CheckGrab(p) => MayGrab(w, p)
    case AcquireLock(_, token, _) => w.nextId <= token
    case Deliver(p) => p in w.queue
    case Duplicate(p) => p in w.queue
    case Lose(p) => p in w.queue
    case CommitCreate(_, o, _) => w.nextId <= o
    case ListMark(p) => MarkExpired(w.redis, p, w.now)
    case CheckPay(o, u) => T.CanPay(w.db, o, u)
    case CheckCancel(o, u) => T.CanCancel(w.db, o, u)
    case ListClose(o) => CloseDue(w.redis, o, w.now)
    case ListFailed(g) => T.CanFail(w.db, g, w.now)
    case ListSucceeded(g) => T.CanSucceedLate(w.db, g, w.now)
    case Store(n, id, _) => n in w.mail && w.nextId <= id
    case LoseMail(n) => n in w.mail
    case RepayClose(o, _, _) => OweClose(o) in w.owed
    case RepayNotice(n, _, _) => OweNotice(n) in w.owed
    case _ => true
  }

  predicate Enabled(w: World, e: Event)
  {
    (forall t :: t in Carried(e) ==> t in w.tasks) && Guard(w, e)
  }

  // ---- Effect, store by store ------------------------------------------------------------

  function UsersAfter(w: World, e: Event): set<int>
  {
    match e
    case AddUser(u) => w.users + {u}
    case DropUser(u) => w.users - {u}
    case _ => w.users
  }

  function DbAfter(w: World, e: Event): Db
  {
    match e
    case OpenGood(g, row) => w.db.(goods := w.db.goods[g := row])
    case DropGood(g) => w.db.(goods := w.db.goods - {g})
    case CommitCreate(p, o, _) => T.CreateOrder(w.db, o, p, w.now)
    case CommitPay(o, u, _) => T.PayOrder(w.db, o, u)
    case CommitCancel(o, u, _) => T.CancelOrder(w.db, o, u)
    case CommitClose(o, _) => T.EndOrder(w.db, o, Closed, w.now)
    case CommitFailed(g, _) => T.JudgeFailed(w.db, g, w.now)
    case CommitSucceeded(g, _) => T.JudgeSucceeded(w.db, g, w.now)
    case _ => w.db
  }

  function RedisAfter(w: World, e: Event): Redis
  {
    match e
    case OpenGood(g, row) => OpenStock(w.redis, g, row.max)
    case AcquireLock(p, token, _) => TakeLock(w.redis, p.good, token)
    case LockExpires(g) => ExpireLock(w.redis, g)
    case RunGrabScript(p, _, done, _) => if done then Grab(w.redis, p, w.now) else w.redis
    case FreeLock(g, token) => ReleaseLock(w.redis, g, token)
    case RemoveMark(p, done) => if done then ClearMark(w.redis, p) else w.redis
    case AddClose(o, done, _) => if done then ScheduleClose(w.redis, o, w.now) else w.redis
    case RenewMarkOf(p) => RenewMark(w.redis, p, w.now)
    case IncrStock(o) => ReleaseSlot(w.redis, GoodOf(w, o))
    case RemoveClose(o) => UnscheduleClose(w.redis, o)
    case RepayClose(o, done, _) => if done then ScheduleClose(w.redis, o, w.now) else w.redis
    case _ => w.redis
  }

  /** A message held by a handler that gives up (nack) or dies goes back to the queue. */
  function QueueAfter(w: World, e: Event): multiset<Pair>
  {
    match e
    case Crash(t) => if HoldsMessage(t) then w.queue + multiset{t.p} else w.queue
    case PublishGrab(p, done) => w.queue + One(done, p)
    case Deliver(p) => w.queue - multiset{p}
    case Duplicate(p) => w.queue + multiset{p}
    case Lose(p) => w.queue - multiset{p}
    case Republish(p, done, _) => w.queue + One(done, p)
    case _ => w.queue
  }

  function MailAfter(w: World, e: Event): multiset<Notice>
  {
    match e
    case Publish(n, done, _) => w.mail + One(done, n)
    case Store(n, _, keep) => if keep then w.mail else w.mail - multiset{n}
    case LoseMail(n) => w.mail - multiset{n}
    case RepayNotice(n, done, _) => w.mail + One(done, n)
    case _ => w.mail
  }

  function InboxAfter(w: World, e: Event): map<int, Notice>
  {
    match e
    case Store(n, id, _) => if n in w.inbox.Values then w.inbox else w.inbox[id := n]
    case _ => w.inbox
  }

  function OwedAfter(w: World, e: Event): multiset<Owed>
  {
    match e
    case AddClose(o, _, owe) => w.owed + One(owe, OweClose(o))
    case Publish(n, _, owe) => w.owed + One(owe, OweNotice(n))
    case RepayClose(o, _, keep) => if keep then w.owed else w.owed - multiset{OweClose(o)}
    case RepayNotice(n, _, keep) => if keep then w.owed else w.owed - multiset{OweNotice(n)}
    case _ => w.owed
  }

  function NextIdAfter(w: World, e: Event): int
  {
    match e
    case AddUser(u) => u + 1
    case OpenGood(g, _) => g + 1
    case AcquireLock(_, token, _) => token + 1
    case CommitCreate(_, o, _) => o + 1
    case Store(_, id, _) => id + 1
    case _ => w.nextId
  }

  /** What the handler has to do next once the operation has answered. */
  function Started(w: World, e: Event): set<Task>
  {
    match e
    case CheckGrab(p) => {ReadBuyer(p)}
    case FindBuyer(p) => If(p.user in w.users, TryLock(p))
    case AcquireLock(p, token, seen) => If(seen && p.good !in w.redis.locks, Locked(p, token))
    case RunGrabScript(p, token, done, seen) =>
      {Unlock(p.good, token)} + If(done && seen && GrabReplyOf(w.redis, p) == GrabOk, SendGrab(p))
    case Deliver(p) => {ReadGood(p)}
    case FindGood(p) => {if p.good in w.db.goods then ReadUser(p) else ClearPending(p)}
    case FindUser(p) => {if p.user in w.users then InsertOrder(p) else ClearPending(p)}
    case CommitCreate(p, o, seen) => if seen then CreateFollowUp(w.db, o, p) else {NackMessage(p)}
    case RemoveMark(p, _) => {AckMessage(p)}
    case ListMark(p) => {Resend(p)}
    case Republish(p, _, seen) => If(seen, Renew(p))
    case CheckPay(o, u) => {Pay(o, u)}
    case CommitPay(o, u, seen) =>
      if seen && T.CanPay(w.db, o, u) then {DropClose(o), Tell(Notice(u, TellPaid, o))} else {}
    case CheckCancel(o, u) => {Cancel(o, u)}
    case CommitCancel(o, u, seen) =>
      if seen && T.CanCancel(w.db, o, u)
      then {ReturnSlot(o), DropClose(o), Tell(Notice(u, TellCancelled, o))} else {}
    case ListClose(o) => {Close(o)}
    case CommitClose(o, seen) =>
      if !seen then {}
      else if T.CanLeavePending(w.db, o)
      then {ReturnSlot(o), DropClose(o), Tell(Notice(w.db.orders[o].user, TellClosed, o))}
      else {DropClose(o)}
    case ListFailed(g) => {FailGood(g)}
    case CommitFailed(g, seen) => If(seen && T.CanFail(w.db, g, w.now), TellMembers(g, TellFailed))
    case ListSucceeded(g) => {SucceedGood(g)}
    case CommitSucceeded(g, seen) => If(seen && T.CanSucceedLate(w.db, g, w.now), TellMembers(g, TellSucceeded))
    case Expand(g, c) => Letters(w, g, c)
    case _ => {}
  }

  /** After a create transaction the mark is cleared in any case; a new order is
      scheduled and announced, and the one that completed the group tells everybody. */
  function CreateFollowUp(db: Db, o: int, p: Pair): set<Task>
  {
    if T.Conflicts(db, o, p) then {ClearPending(p)}
    else {ClearPending(p), EnqueueClose(o), Tell(Notice(p.user, TellPendingPay, o))} +
         If(BecomesSucceeded(db, o, p), TellMembers(p.good, TellSucceeded))
  }

  function Apply(w: World, e: Event): World
  {
    World(
      db := DbAfter(w, e),
      users := UsersAfter(w, e),
      redis := RedisAfter(w, e),
      queue := QueueAfter(w, e),
      mail := MailAfter(w, e),
      inbox := InboxAfter(w, e),
      owed := OwedAfter(w, e),
      tasks := w.tasks - multiset(Carried(e)) + multiset(Started(w, e)),
      nextId := NextIdAfter(w, e),
      now := if e.Tick? then e.time else w.now)
  }

  // ---- History ----------------------------------------------------------------------------

  /** What the transactions of a run reported to their callers. */
  datatype Fact =
    | PaidWin(order: int) | CancelWin(order: int) | CloseWin(order: int) | SlotReturned(order: int)
    | Elected(good: int) | Filled(good: int) | FailedHit(good: int) | SucceededHit(good: int)

  function Facts(w: World, e: Event): set<Fact>
  {
    match e
    case CommitCreate(p, o, _) =>
      If(BecomesSucceeded(w.db, o, p), Elected(p.good)) + If(BecomesFull(w.db, o, p), Filled(p.good))
    case CommitPay(o, u, _) => If(T.CanPay(w.db, o, u), PaidWin(o))
    case CommitCancel(o, u, _) => If(T.CanCancel(w.db, o, u), CancelWin(o))
    case CommitClose(o, _) => If(T.CanLeavePending(w.db, o), CloseWin(o))
    case IncrStock(o) => {SlotReturned(o)}
    case CommitFailed(g, _) => If(T.CanFail(w.db, g, w.now), FailedHit(g))
    case CommitSucceeded(g, _) => If(T.CanSucceedLate(w.db, g, w.now), SucceededHit(g))
    case _ => {}
  }

  /** The rows goods were published with; a published row's terms never change. */
  type Terms = map<int, GroupBuy>

  function Published(ts: Terms, e: Event): Terms
  {
    match e
    case OpenGood(g, row) => ts[g := row]
    case _ => ts
  }

  datatype History = History(facts: multiset<Fact>, terms: Terms)

  function Record(h: History, w: World, e: Event): History
  {
    History(h.facts + multiset(Facts(w, e)), Published(h.terms, e))
  }

  // ---- Runs -------------------------------------------------------------------------------

  /** Before the first good is published. */
  predicate Initial(w: World)
  {
    && w.db == Db(map[], map[], {})
    && w.redis == Redis(map[], {}, map[], map[], map[])
    && w.queue == multiset{} && w.mail == multiset{} && w.inbox == map[]
    && w.owed == multiset{} && w.tasks == multiset{}
    && (forall u :: u in w.users ==> u < w.nextId)
  }

  /** Names an event whose effect is to be looked into; see Takes. */
  ghost predicate Happens(e: Event) { true }

  /** Event e leads from w to w' and from h to h'.  What that means is said only of events
      named under Happens, so that a run can be carried along without being looked into. */
  ghost predicate Takes(w: World, h: History, e: Event, w': World, h': History)
  {
    forall x {:trigger Happens(x)} :: Happens(x) && x == e ==>
      Enabled(w, x) && w' == Apply(w, x) && h' == Record(h, w, x)
  }

  lemma Taken(w: World, h: History, e: Event, w': World, h': History)
    requires Takes(w, h, e, w', h')
    ensures Enabled(w, e) && w' == Apply(w, e) && h' == Record(h, w, e)
  {
    assert Happens(e);
  }

  /** A run with the state and the record after each step. */
  datatype Run = Begin(first: World) | Then(before: Run, event: Event, now: World, log: History)

  function Now(r: Run): World
  {
    match r
    case Begin(w) => w
    case Then(_, _, now, _) => now
  }

  function Log(r: Run): History
  {
    match r
    case Begin(_) => History(multiset{}, map[])
    case Then(_, _, _, log) => log
  }

  ghost predicate Valid(r: Run)
  {
    match r
    case Begin(w) => Initial(w)
    case Then(before, e, now, log) => Valid(before) && Takes(Now(before), Log(before), e, now, log)
  }

  lemma OneMore(r: Run, e: Event) returns (r': Run)
    requires Valid(r) && Enabled(Now(r), e)
    ensures Valid(r') && Now(r') == Apply(Now(r), e) && Log(r') == Record(Log(r), Now(r), e)
    ensures r'.Then? && r'.before == r && r'.event == e
  {
    r' := Then(r, e, Apply(Now(r), e), Record(Log(r), Now(r), e));
  }

  /** r continues `start` by any number of steps. */
  predicate Continues(r: Run, start: Run)
  {
    r == start || (r.Then? && Continues(r.before, start))
  }
}
