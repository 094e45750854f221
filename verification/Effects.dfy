/**
 What each request, message and scan comes to when nothing fails and nobody
 interferes: its answer, and its whole effect on the shared stores.
 */
module Effects {
  import opened Model
  import opened RedisKeys
  import opened Shared
  import opened SortedSets
  import T = OrderTables

  /** What becomes of a create message. */
  datatype Verdict = Created | Duplicate | NoGood | NoUser | Transient

  /** What a message meets when nothing fails. */
  ghost function VerdictOf(v: View, p: Pair): Verdict
  {
    if p.good !in v.db.goods then NoGood
    else if p.user !in v.users then NoUser
    else if HasOrder(v.db, p) then Duplicate
    else Created
  }

  ghost function AfterMessage(v: View, p: Pair): View
  {
    var cleared := ClearMark(v.redis, p);
    if TargetMissing(v, p) then v.(redis := cleared)
    else v.(db := T.CreateOrder(v.db, v.nextId, p, v.now), nextId := v.nextId + 1,
            redis := if HasOrder(v.db, p) then cleared else ScheduleClose(cleared, v.nextId, v.now))
  }

  datatype Answer = Accepted | AlreadyIn | SoldOut | Busy | NotExist | Over | OwnGood | Unavailable

  predicate PassesChecks(v: View, p: Pair)
  {
    TakesIn(v.db, v.now, p) && p.user in v.users
  }

  /** Answer to a grab request when nothing fails. */
  function AnswerOf(v: View, p: Pair): Answer
  {
    if p.good !in v.db.goods then NotExist
    else
      var row := v.db.goods[p.good];
      if row.status == Full then Answer.SoldOut
      else if row.status != Recruiting || v.now > row.deadline then Over
      else if row.publisher == p.user then OwnGood
      else if p.user !in v.users then Unavailable
      else if p.good in v.redis.locks then Busy
      else AnswerOfScript(v.redis, p)
  }

  function AnswerOfScript(r: Redis, p: Pair): Answer
  {
    match GrabReplyOf(r, p)
    case GrabOk => Accepted
    case Already => AlreadyIn
    case SoldOut => Answer.SoldOut
  }

  /** The good takes in p: it is recruiting, not past its deadline, and not p's own. */
  predicate TakesIn(db: Db, now: int, p: Pair)
  {
    && p.good in db.goods && db.goods[p.good].status == Recruiting
    && now <= db.goods[p.good].deadline && db.goods[p.good].publisher != p.user
  }

  /** What the script's answers say of the moment it ran. */
  predicate ScriptAnswers(a: Answer, p: Pair, ran: View)
  {
    match a
    case Accepted => p !in ran.redis.members && Stock(ran.redis, p.good) > 0
    case AlreadyIn => p in ran.redis.members
    case SoldOut => p !in ran.redis.members && Stock(ran.redis, p.good) <= 0
    case Unavailable => true
    case _ => false
  }

  /** What each answer says, of the row when it was read and of the slots when the script ran. */
  predicate AnswerIsRight(a: Answer, p: Pair, read: View, ran: View)
  {
    var goods := read.db.goods;
    match a
    case NotExist => p.good !in goods
    case OwnGood => p.good in goods && goods[p.good].publisher == p.user
    case Over =>
      && p.good in goods && goods[p.good].status != Full
      && (goods[p.good].status != Recruiting || goods[p.good].deadline < read.now)
    case Busy => TakesIn(read.db, read.now, p) && p.good in ran.redis.locks
    case SoldOut =>
      || (p.good in goods && goods[p.good].status == Full)
      || (TakesIn(read.db, read.now, p) && ScriptAnswers(a, p, ran))
    case Unavailable => true
    case _ => TakesIn(read.db, read.now, p) && ScriptAnswers(a, p, ran)
  }

  /** In a calm call, when each answer is given. */
  lemma AnswersAre(v: View, p: Pair)
    ensures var a, r := AnswerOf(v, p), v.redis;
            var entered := TakesIn(v.db, v.now, p) && p.user in v.users && p.good !in r.locks;
            && (a == Accepted <==> entered && p !in r.members && Stock(r, p.good) > 0)
            && (a == AlreadyIn <==> entered && p in r.members)
            && (a == Answer.SoldOut <==> (p.good in v.db.goods && v.db.goods[p.good].status == Full) ||
                                         (entered && p !in r.members && Stock(r, p.good) <= 0))
            && (a == Unavailable <==> TakesIn(v.db, v.now, p) && p.user !in v.users)
            && (a == Busy <==> TakesIn(v.db, v.now, p) && p.user in v.users && p.good in r.locks)
            && (a == NotExist <==> p.good !in v.db.goods)
  {
  }

  // ---- Whole effects ------------------------------------------------------------------------

  function AfterGrab(v: View, p: Pair, scripted: bool, nextId: int): View
  {
    if !scripted then v.(nextId := nextId)
    else v.(redis := Grab(v.redis, p, v.now), nextId := nextId,
            queue := if GrabReplyOf(v.redis, p) == GrabOk then v.queue + multiset{p} else v.queue)
  }

  function AfterUnlock(v: View, g: int, token: int): View
  {
    v.(redis := ReleaseLock(v.redis, g, token))
  }

  function AfterPay(v: View, o: int, u: int): View
  {
    v.(db := T.PayOrder(v.db, o, u), redis := UnscheduleClose(v.redis, o))
  }

  function AfterCancelTx(v: View, o: int, u: int): View
  {
    v.(db := T.CancelOrder(v.db, o, u), claimed := v.claimed + Ended(T.CanCancel(v.db, o, u), o))
  }

  function AfterCloseTx(v: View, o: int): View
  {
    v.(db := T.EndOrder(v.db, o, Closed, v.now), claimed := v.claimed + Ended(T.CanLeavePending(v.db, o), o))
  }

  function AfterRelease(v: View, o: int): View
    requires o in v.db.orders
  {
    v.(redis := ReleaseSlot(v.redis, v.db.orders[o].good), claimed := v.claimed - {o}, returned := v.returned + {o})
  }

  function AfterGiveUp(v: View, o: int): View
    requires o in v.db.orders
  {
    var released := AfterRelease(v, o);
    released.(redis := UnscheduleClose(released.redis, o))
  }

  /** A cancel or close that wins: order ended, slot back, close task gone. */
  function AfterEnd(v: View, o: int, ended: OrderStatus, now: int): View
    requires o in v.db.orders
  {
    AfterGiveUp(v.(db := T.EndOrder(v.db, o, ended, now), claimed := v.claimed + {o}), o)
  }

  function AfterClose(v: View, o: int): View
  {
    if T.CanLeavePending(v.db, o) then AfterEnd(v, o, Closed, v.now)
    else v.(redis := UnscheduleClose(v.redis, o))
  }

  function AfterCloses(v: View, page: seq<int>): View
  {
    if page == [] then v else AfterClose(AfterCloses(v, page[..|page| - 1]), page[|page| - 1])
  }

  function AfterResend(v: View, page: seq<Pair>): View
  {
    if page == [] then v
    else
      var before := AfterResend(v, page[..|page| - 1]);
      var p := page[|page| - 1];
      before.(queue := before.queue + multiset{p}, redis := RenewMark(before.redis, p, before.now))
  }

  function AfterFails(v: View, ids: seq<int>): View
  {
    if ids == [] then v
    else v.(db := T.JudgeFailed(AfterFails(v, ids[..|ids| - 1]).db, ids[|ids| - 1], v.now))
  }

  lemma {:induction false} FailsTouchTheirRows(v: View, ids: seq<int>)
    ensures var db := AfterFails(v, ids).db;
            && db.orders == v.db.orders && db.signups == v.db.signups && db.goods.Keys == v.db.goods.Keys
            && forall g :: g in db.goods ==>
                 db.goods[g] == if g in ids && T.CanFail(v.db, g, v.now)
                                then v.db.goods[g].(status := Failed) else v.db.goods[g]
  {
    if ids != [] {
      var n := |ids| - 1;
      FailsTouchTheirRows(v, ids[..n]);
      assert forall g :: g in ids <==> g in ids[..n] || g == ids[n];
    }
  }

  predicate Distinct(s: seq<int>)
  {
    forall i, j :: 0 <= i < j < |s| ==> s[i] != s[j]
  }

  lemma OneMoreFails(v: View, due: seq<int>, i: nat)
    requires i < |due| && Distinct(due)
    ensures due[..i + 1] == due[..i] + [due[i]] && due[i] !in due[..i]
    ensures var before := AfterFails(v, due[..i]);
            && AfterFails(v, due[..i + 1]) == before.(db := T.JudgeFailed(before.db, due[i], v.now))
            && (T.CanFail(before.db, due[i], v.now) <==> T.CanFail(v.db, due[i], v.now))
  {
    assert due[..i + 1][..i] == due[..i];
    FailsTouchTheirRows(v, due[..i]);
  }

  /** What failing goods row by row came to while others were at work: the moment at which the
      due goods were listed, and for each of them the moment its own update found. */
  datatype Round = Round(listed: View, due: seq<int>, moments: seq<View>)

  /** The updates of `due` took effect one after the other between v and v', each in its moment. */
  ghost predicate InTurn(v: View, due: seq<int>, moments: seq<View>, v': View)
    requires |due| == |moments|
    decreases |due|
  {
    if due == [] then Onward(v, v')
    else
      var n := |due| - 1;
      InTurn(v, due[..n], moments[..n], moments[n]) && UpdateIn(moments[n], due[n], v')
  }

  /** The update of g took effect in moment m, and v' comes after it. */
  ghost predicate UpdateIn(m: View, g: int, v': View)
  {
    Sound(m) && Onward(m.(db := T.JudgeFailed(m.db, g, m.now)), v')
  }

  /** The goods whose update changed a row. */
  function Hits(due: seq<int>, moments: seq<View>): seq<int>
    requires |due| == |moments|
  {
    if due == [] then []
    else
      var n := |due| - 1;
      Hits(due[..n], moments[..n]) +
      (if T.CanFail(moments[n].db, due[n], moments[n].now) then [due[n]] else [])
  }

  lemma DistinctGrows(s: seq<int>, x: int)
    requires Distinct(s) && x !in s
    ensures Distinct(s + [x])
  {
  }

  lemma {:induction false} HitsAreDistinct(due: seq<int>, moments: seq<View>)
    requires |due| == |moments| && Distinct(due)
    ensures Distinct(Hits(due, moments)) && forall g :: g in Hits(due, moments) ==> g in due
  {
    if due != [] {
      var n := |due| - 1;
      HitsAreDistinct(due[..n], moments[..n]);
      var before := Hits(due[..n], moments[..n]);
      assert due[n] !in due[..n] && before + [] == before;
      DistinctGrows(before, due[n]);
    }
  }

  ghost predicate RoundOf(v: View, r: Round, ids: seq<int>, v': View)
  {
    && Sound(r.listed) && Onward(v, r.listed)
    && (forall g :: g in r.due <==> T.CanFail(r.listed.db, g, r.listed.now))
    && |r.moments| == |r.due| && InTurn(r.listed, r.due, r.moments, v') && ids == Hits(r.due, r.moments)
  }

  lemma StillInTurn(v: View, due: seq<int>, moments: seq<View>, a: View, b: View)
    requires |due| == |moments| && InTurn(v, due, moments, a) && Onward(a, b)
    ensures InTurn(v, due, moments, b)
  {
    if due == [] {
      OnwardTwice(v, a, b);
    } else {
      var m, g := moments[|due| - 1], due[|due| - 1];
      OnwardTwice(m.(db := T.JudgeFailed(m.db, g, m.now)), a, b);
    }
  }

  lemma OneMoreInTurn(v: View, due: seq<int>, moments: seq<View>, a: View, g: int, m: View, b: View)
    requires |due| == |moments| && InTurn(v, due, moments, a) && Onward(a, m) && UpdateIn(m, g, b)
    ensures InTurn(v, due + [g], moments + [m], b)
    ensures Hits(due + [g], moments + [m]) ==
            Hits(due, moments) + (if T.CanFail(m.db, g, m.now) then [g] else [])
  {
    StillInTurn(v, due, moments, a, m);
    assert (due + [g])[..|due|] == due && (moments + [m])[..|due|] == moments;
  }

  /** Each good that is reported was recruiting, overdue and short of its minimum when it was
      failed, and nobody has brought it back since. */
  lemma {:induction false} HitsHaveFailed(v: View, due: seq<int>, moments: seq<View>, v': View, g: int)
    requires |due| == |moments| && InTurn(v, due, moments, v') && g in Hits(due, moments)
    ensures g in v'.terms && IsOver(v'.db, g)
    ensures exists m :: m in moments && T.CanFail(m.db, g, m.now)
    decreases |due|
  {
    var n := |due| - 1;
    var m := moments[n];
    assert Watched(g);
    if g in Hits(due[..n], moments[..n]) {
      HitsHaveFailed(v, due[..n], moments[..n], m, g);
      assert forall x :: x in moments[..n] ==> x in moments;
    } else {
      assert g == due[n] && T.CanFail(m.db, g, m.now);
    }
  }

  /** Failing all that are due judges every row, given that no row should have succeeded before. */
  lemma FailsJudge(v: View, ids: seq<int>)
    requires forall g :: g in ids <==> T.CanFail(v.db, g, v.now)
    requires forall g :: !T.CanSucceedLate(v.db, g, v.now)
    ensures forall g :: g in v.db.goods ==>
              g in AfterFails(v, ids).db.goods && AfterFails(v, ids).db.goods[g] == Judged(v.db.goods[g], v.now)
  {
    FailsTouchTheirRows(v, ids);
    var goods := AfterFails(v, ids).db.goods;
    forall g | g in v.db.goods ensures g in goods && goods[g] == Judged(v.db.goods[g], v.now) {
      assert !T.CanSucceedLate(v.db, g, v.now) && (g in ids <==> T.CanFail(v.db, g, v.now));
    }
  }

  /** Close tasks of `gone` retired, none of their orders left waiting for payment. */
  ghost predicate Retired(v: View, v': View, gone: set<int>)
  {
    && v'.redis == v.redis.(closeAt := v.redis.closeAt - gone, stock := v'.redis.stock)
    && v'.users == v.users && v'.queue == v.queue && v'.now == v.now
    && v'.db.orders.Keys == v.db.orders.Keys
    && (forall o :: o in gone && o in v'.db.orders ==> v'.db.orders[o].status != PendingPay)
    && (forall o :: o in v.db.orders && o !in gone ==> v'.db.orders[o] == v.db.orders[o])
  }

  lemma CloseRetires(v: View, o: int)
    ensures Retired(v, AfterClose(v, o), {o})
  {
  }

  lemma RetiredTwice(v: View, w: View, v': View, some: set<int>, more: set<int>)
    requires Retired(v, w, some) && Retired(w, v', more)
    ensures Retired(v, v', some + more)
  {
    assert v.redis.closeAt - (some + more) == v.redis.closeAt - some - more;
    forall o | o in some && o in v'.db.orders ensures v'.db.orders[o].status != PendingPay {
      assert o !in more ==> v'.db.orders[o] == w.db.orders[o];
    }
  }

  lemma {:induction false} ClosesRetire(v: View, page: seq<int>)
    ensures Retired(v, AfterCloses(v, page), set o | o in page)
  {
    if page == [] {
      assert v.redis.closeAt - {} == v.redis.closeAt;
    } else {
      var n := |page| - 1;
      ClosesRetire(v, page[..n]);
      CloseRetires(AfterCloses(v, page[..n]), page[n]);
      RetiredTwice(v, AfterCloses(v, page[..n]), AfterCloses(v, page), set o | o in page[..n], {page[n]});
      assert (set o | o in page) == (set o | o in page[..n]) + {page[n]};
    }
  }

  /** Every listed message published again and its mark renewed; nothing else changed. */
  ghost predicate Renewed(v: View, v': View, page: multiset<Pair>)
  {
    && v' == v.(queue := v.queue + page, redis := v.redis.(pending := v'.redis.pending))
    && v'.redis.pending.Keys == v.redis.pending.Keys + (set p | p in page)
    && (forall p :: p in v'.redis.pending && p !in page ==> v'.redis.pending[p] == v.redis.pending[p])
  }

  lemma RenewedOnceMore(v: View, w: View, page: multiset<Pair>, p: Pair)
    requires Renewed(v, w, page)
    ensures var v' := w.(queue := w.queue + multiset{p}, redis := RenewMark(w.redis, p, w.now));
            Renewed(v, v', page + multiset{p})
  {
    assert w.queue + multiset{p} == v.queue + (page + multiset{p});
  }

  lemma {:induction false} ResendRenews(v: View, page: seq<Pair>)
    ensures Renewed(v, AfterResend(v, page), multiset(page))
  {
    if page == [] {
      assert v.queue + multiset(page) == v.queue;
    } else {
      var n := |page| - 1;
      ResendRenews(v, page[..n]);
      assert page == page[..n] + [page[n]];
      RenewedOnceMore(v, AfterResend(v, page[..n]), multiset(page[..n]), page[n]);
    }
  }

  lemma AllMarksExpire(v: View, later: int)
    requires Sound(v) && v.now + 31 * SECOND <= later
    ensures Older(v.redis.pending, Unix(later - PENDING_TIMEOUT)) == v.redis.pending.Keys
  {
    forall p | p in v.redis.pending ensures v.redis.pending[p] < Unix(later - PENDING_TIMEOUT) {
      MarksExpire(v, p, later);
    }
  }

  /** If all that was marked is settled now, so is every member. */
  lemma MarkedOrSettled(v: View, v': View, marked: set<Pair>)
    requires Sound(v) && Onward(v, v') && v'.redis.members == v.redis.members && marked == v.redis.pending.Keys
    requires forall p :: p in marked ==> Settled(v', p)
    ensures forall p :: p in v'.redis.members ==> Settled(v', p)
  {
    forall p | p in v'.redis.members ensures Settled(v', p) {
      if p !in marked {
        SettledStays(v, v', p);
      }
    }
  }

  lemma MessageDrains(v: View, p: Pair)
    ensures Drained(v, AfterMessage(v, p), {p})
  {
  }

  /** Messages for `gone` consumed: their marks are cleared, and members, stock and locks are as before. */
  ghost predicate Drained(v: View, v': View, gone: set<Pair>)
  {
    && v'.redis == v.redis.(pending := v.redis.pending - gone, closeAt := v'.redis.closeAt)
    && v'.users == v.users && v'.now == v.now
  }

  lemma DrainedTwice(v: View, w: View, v': View, some: set<Pair>, more: set<Pair>)
    requires Drained(v, w, some) && Drained(w, v', more)
    ensures Drained(v, v', some + more)
  {
    assert v.redis.pending - (some + more) == v.redis.pending - some - more;
  }

  datatype Progress = NotGrabbed | InProgress | Ordered(order: int) | Unknown

  datatype Reply = Fine | NoOrder | NotOwner | Changed | Broken

  /** Answer to a pay or cancel request when nothing fails. */
  function ReplyOf(db: Db, o: int, u: int): Reply
  {
    if o !in db.orders then NoOrder
    else if db.orders[o].user != u then NotOwner
    else if db.orders[o].status != PendingPay then Changed
    else Fine
  }

  /** Signed-up users of a good and its publisher. */
  function Recipients(db: Db, g: int, publisher: int): set<int>
  {
    SignedUp(db, g) + {publisher}
  }

  /** A cancel takes the sign-up row with it: whoever cancelled hears nothing more of the
      good, unless he published it. */
  lemma CancelledUserIsNotTold(db: Db, o: int, u: int, publisher: int)
    requires T.CanCancel(db, o, u)
    ensures u in Recipients(T.CancelOrder(db, o, u), db.orders[o].good, publisher) <==> u == publisher
  {
    assert T.CancelOrder(db, o, u).signups == db.signups - {db.orders[o].Key()};
  }

  // ---- What goes out -------------------------------------------------------------------------

  /** Notices published, notices and closes owed as compensation, and how many operations have
      failed, or lost their answer, so far. */
  datatype Outbox = Outbox(mail: multiset<Notice>, owed: multiset<Notice>, closes: set<int>, faults: nat)

  /** Nothing went out. */
  predicate Silent(a: Outbox, b: Outbox)
  {
    b == a.(faults := b.faults) && a.faults <= b.faults
  }

  /** Names a notice to be looked at: handlers carry what is said of notices along unopened. */
  ghost predicate Looked(n: Notice) { true }

  function Bit(b: bool): nat { if b then 1 else 0 }

  /** Of notices, nothing but those of ns went out, each at most once as a message and at most
      once as a compensation row; if nothing failed, each of them as a message and only so. */
  ghost predicate Sends(a: Outbox, b: Outbox, ns: set<Notice>)
  {
    && a.faults <= b.faults
    && forall n {:trigger Looked(n)} :: Looked(n) ==>
         && a.mail[n] <= b.mail[n] <= a.mail[n] + Bit(n in ns)
         && a.owed[n] <= b.owed[n] <= a.owed[n] + Bit(n in ns)
         && (a.faults == b.faults ==> b.mail[n] == a.mail[n] + Bit(n in ns) && b.owed[n] == a.owed[n])
  }

  /** The notice is published, or owed, unless two operations have failed. */
  predicate Told(a: Outbox, b: Outbox, n: Notice)
  {
    a.mail[n] < b.mail[n] || a.owed[n] < b.owed[n] || a.faults + 2 <= b.faults
  }

  lemma SilentSends(a: Outbox, b: Outbox)
    requires Silent(a, b)
    ensures Sends(a, b, {})
  {
  }

  lemma SendsTwice(a: Outbox, b: Outbox, c: Outbox, ns: set<Notice>, ms: set<Notice>)
    requires Sends(a, b, ns) && Sends(b, c, ms) && ns !! ms
    ensures Sends(a, c, ns + ms)
  {
  }

  lemma ToldStays(a: Outbox, b: Outbox, c: Outbox, d: Outbox, n: Notice, ns: set<Notice>, ms: set<Notice>)
    requires Sends(a, b, ns) && Told(b, c, n) && Sends(c, d, ms)
    ensures Told(a, d, n)
  {
    assert Looked(n);
  }

  lemma AllSent(a: Outbox, b: Outbox, ns: set<Notice>)
    requires Sends(a, b, ns) && a.faults == b.faults
    ensures b.mail == a.mail + multiset(ns) && b.owed == a.owed
  {
    forall n ensures b.mail[n] == (a.mail + multiset(ns))[n] && b.owed[n] == a.owed[n] {
      assert Looked(n);
    }
  }

  /** One notice to each of `users`. */
  function Letters(g: int, users: set<int>, c: Category): set<Notice>
  {
    set u | u in users :: Notice(u, c, g)
  }

  lemma OneMoreLetter(a: Outbox, b: Outbox, c: Outbox, g: int, told: set<int>, u: int, category: Category)
    requires Sends(a, b, Letters(g, told, category)) && Sends(b, c, {Notice(u, category, g)}) && u !in told
    ensures Sends(a, c, Letters(g, told + {u}, category))
  {
    assert Letters(g, told + {u}, category) == Letters(g, told, category) + {Notice(u, category, g)};
    SendsTwice(a, b, c, Letters(g, told, category), {Notice(u, category, g)});
  }

  /** What a new order is announced with: to its user that it waits for payment, and, if it
      completed the group, to everybody concerned. */
  ghost function CreationLetters(v: View, p: Pair): set<Notice>
  {
    if VerdictOf(v, p) != Created then {}
    else FollowUpLetters(AfterMessage(v, p).db, v.nextId, p, v.db.goods[p.good].publisher,
                         T.Completes(v.db, p.good))
  }

  function FollowUpLetters(db: Db, o: int, p: Pair, publisher: int, completed: bool): set<Notice>
  {
    {Notice(p.user, TellPendingPay, o)} +
    if completed then Letters(p.good, Recipients(db, p.good, publisher), TellSucceeded) else {}
  }

  /** If `yes`, the notice went out; if not, nothing did. */
  ghost predicate SentIf(yes: bool, a: Outbox, b: Outbox, n: Notice)
  {
    if yes then Sends(a, b, {n}) && Told(a, b, n) else Silent(a, b)
  }

  lemma SilentThenSends(a: Outbox, b: Outbox, c: Outbox, ns: set<Notice>)
    requires Silent(a, b) && Sends(b, c, ns)
    ensures Sends(a, c, ns)
  {
    SilentSends(a, b);
    SendsTwice(a, b, c, {}, ns);
    assert {} + ns == ns;
  }

  lemma SendsThenSilent(a: Outbox, b: Outbox, c: Outbox, ns: set<Notice>)
    requires Sends(a, b, ns) && Silent(b, c)
    ensures Sends(a, c, ns)
  {
    SilentSends(b, c);
    SendsTwice(a, b, c, ns, {});
    assert ns + {} == ns;
  }

  lemma SentAfter(a: Outbox, b: Outbox, c: Outbox, n: Notice)
    requires Silent(a, b) && SentIf(true, b, c, n)
    ensures SentIf(true, a, c, n)
    ensures a.faults == c.faults ==> c.mail == a.mail + multiset{n}
  {
    SilentThenSends(a, b, c, {n});
    if a.faults == c.faults {
      AllSent(a, c, {n});
    }
  }

  /** A failure is the only reason for a message to come again; without one, all is said. */
  lemma MessageSends(v: View, a: Outbox, b: Outbox, p: Pair, verdict: Verdict)
    requires MessageSent(v, a, b, p, verdict)
    requires if verdict == Transient then a.faults < b.faults else verdict == VerdictOf(v, p)
    ensures Sends(a, b, CreationLetters(v, p))
  {
    if verdict != Transient && verdict != Created {
      SilentSends(a, b);
    }
  }

  predicate SameOrder(a: Db, b: Db, o: int)
  {
    (o in a.orders <==> o in b.orders) && (o in a.orders ==> a.orders[o] == b.orders[o])
  }

  ghost predicate OthersAsBefore(a: Db, b: Db, o: int)
  {
    forall x :: x != o ==> SameOrder(a, b, x)
  }

  /** From the i-th on, the orders of a page are as at the start. */
  ghost predicate Untouched(a: Db, b: Db, due: seq<int>, i: nat)
  {
    forall j :: i <= j < |due| ==> SameOrder(a, b, due[j])
  }

  lemma ClosingIsOne(db: Db, o: int)
    ensures ClosingLetters(db, [o]) ==
            if T.CanLeavePending(db, o) then {Notice(db.orders[o].user, TellClosed, o)} else {}
  {
  }

  lemma EndLeavesOthers(db: Db, o: int, now: int)
    ensures OthersAsBefore(db, T.EndOrder(db, o, Closed, now), o) && OthersAsBefore(db, db, o)
  {
  }

  /** The transaction is silent; then the notice goes out if, as is known, it closed the order. */
  lemma ClosingSent(db: Db, a: Outbox, b: Outbox, c: Outbox, o: int, retired: bool)
    requires Silent(a, b) && (!retired ==> a.faults < b.faults && b == c)
    requires var n := if o in db.orders then Notice(db.orders[o].user, TellClosed, o) else Notice(0, TellClosed, o);
             retired ==> if T.CanLeavePending(db, o) then SentIf(true, b, c, n) else Silent(b, c)
    ensures Sends(a, c, ClosingLetters(db, [o]))
    ensures retired && T.CanLeavePending(db, o) ==> Told(a, c, Notice(db.orders[o].user, TellClosed, o))
  {
    ClosingIsOne(db, o);
    if retired && T.CanLeavePending(db, o) {
      SentAfter(a, b, c, Notice(db.orders[o].user, TellClosed, o));
    }
  }

  lemma OneMoreClosing(a: Outbox, b: Outbox, c: Outbox, start: Db, db: Db, db': Db, due: seq<int>, i: nat)
    requires i < |due| && Distinct(due) && Untouched(start, db, due, i) && OthersAsBefore(db, db', due[i])
    requires Sends(a, b, ClosingLetters(start, due[..i])) && Sends(b, c, ClosingLetters(db, [due[i]]))
    ensures Untouched(start, db', due, i + 1)
    ensures Sends(a, c, ClosingLetters(start, due[..i + 1]))
  {
    var told, more := ClosingLetters(start, due[..i]), ClosingLetters(db, [due[i]]);
    ClosingIsOne(db, due[i]);
    assert due[..i + 1] == due[..i] + [due[i]] && SameOrder(start, db, due[i]);
    assert ClosingLetters(start, due[..i + 1]) == told + more;
    SendsTwice(a, b, c, told, more);
    forall j | i + 1 <= j < |due| ensures SameOrder(start, db', due[j]) {
      assert SameOrder(start, db, due[j]) && SameOrder(db, db', due[j]);
    }
  }

  /** What went out for a create message that ended in `verdict`. */
  ghost predicate MessageSent(v: View, a: Outbox, b: Outbox, p: Pair, verdict: Verdict)
  {
    && (verdict != Created ==> Silent(a, b))
    && (verdict == Created ==>
          Sends(a, b, CreationLetters(v, p)) && Told(a, b, Notice(p.user, TellPendingPay, v.nextId)))
  }

  /** Of closes, nothing but those of os became owed. */
  predicate OwesAtMost(a: Outbox, b: Outbox, os: set<int>)
  {
    b.closes == a.closes || b.closes == a.closes + os
  }

  /** The timeout close of o is scheduled, or owed. */
  predicate CloseIsSeenTo(v: View, b: Outbox, o: int)
  {
    o in v.redis.closeAt || o in b.closes
  }

  lemma FollowUpSends(a: Outbox, b: Outbox, c: Outbox, d: Outbox, n: Notice, news: set<Notice>)
    requires b == a.(closes := b.closes, faults := b.faults) && a.faults <= b.faults
    requires Sends(b, c, {n}) && Told(b, c, n) && (Sends(c, d, news) || (news == {} && d == c))
    requires forall m :: m in news ==> m.category != n.category
    ensures Sends(a, d, {n} + news) && Told(a, d, n)
  {
    assert Sends(a, b, {}) && Sends(c, d, news);
    SendsTwice(a, b, c, {}, {n});
    SendsTwice(a, c, d, {} + {n}, news);
    assert {} + {n} + news == {n} + news;
    ToldStays(a, b, c, d, n, {}, news);
  }

  lemma FollowUpSent(a: Outbox, b: Outbox, c: Outbox, ns: set<Notice>, n: Notice)
    requires Silent(a, b) && Sends(b, c, ns) && Told(b, c, n)
    ensures Sends(a, c, ns) && Told(a, c, n)
  {
    SilentThenSends(a, b, c, ns);
  }

  /** A page of closes tells the owner of each order that was waiting for payment. */
  function ClosingLetters(db: Db, page: seq<int>): set<Notice>
  {
    set o | o in page && T.CanLeavePending(db, o) :: Notice(db.orders[o].user, TellClosed, o)
  }

  /** Everybody with a live order, and the publisher. */
  lemma AudienceIs(db: Db, g: int, u: int)
    requires T.DbInv(db)
    ensures u in Audience(db, g) <==> g in db.goods && (HasLiveOrder(db, Pair(g, u)) || u == db.goods[g].publisher)
  {
    assert Pair(g, u) in db.signups <==> HasLiveOrder(db, Pair(g, u));
  }

  /** A verdict is told to everybody concerned with one of the goods. */
  function VerdictLetters(db: Db, goods: seq<int>, c: Category): set<Notice>
  {
    if goods == [] then {}
    else
      var g := goods[|goods| - 1];
      VerdictLetters(db, goods[..|goods| - 1], c) + Letters(g, Audience(db, g), c)
  }

  lemma {:induction false} VerdictLettersAre(db: Db, goods: seq<int>, c: Category, n: Notice)
    ensures n in VerdictLetters(db, goods, c) <==> n.category == c && n.ref in goods && n.user in Audience(db, n.ref)
  {
    if goods != [] {
      VerdictLettersAre(db, goods[..|goods| - 1], c, n);
    }
  }

  function Audience(db: Db, g: int): set<int>
  {
    if g in db.goods then Recipients(db, g, db.goods[g].publisher) else {}
  }

  lemma OneMoreVerdict(a: Outbox, b: Outbox, c: Outbox, db: Db, goods: seq<int>, i: nat, category: Category)
    requires i < |goods| && Distinct(goods)
    requires Sends(a, b, VerdictLetters(db, goods[..i], category))
    requires Sends(b, c, Letters(goods[i], Audience(db, goods[i]), category))
    ensures Sends(a, c, VerdictLetters(db, goods[..i + 1], category))
  {
    var told, more := VerdictLetters(db, goods[..i], category), Letters(goods[i], Audience(db, goods[i]), category);
    assert goods[..i + 1][..i] == goods[..i];
    forall n | n in more ensures n !in told {
      VerdictLettersAre(db, goods[..i], category, n);
    }
    SendsTwice(a, b, c, told, more);
  }

  /** Nothing, then a verdict, then nothing. */
  lemma VerdictSends(a: Outbox, b: Outbox, c: Outbox, d: Outbox, ns: set<Notice>)
    requires Silent(a, b) && Sends(b, c, ns) && Sends(c, d, {})
    ensures Sends(a, d, ns)
    ensures a.faults == d.faults ==> d.mail == a.mail + multiset(ns)
  {
    SilentThenSends(a, b, c, ns);
    SendsTwice(a, c, d, ns, {});
    assert ns + {} == ns;
    if a.faults == d.faults {
      AllSent(a, d, ns);
    }
  }

  // ---- Whatever fails, as long as nobody interferes ------------------------------------------

  /** Keys that only grabs and releases move. */
  function Core(r: Redis): (map<int, int>, set<Pair>, map<Pair, int>)
  {
    (r.stock, r.members, r.pending)
  }

  /** A message that must come again has left Redis alone, its mark included; any other
      verdict is the right one and the tables are as they should be. */
  ghost predicate MessageHandled(v: View, v': View, p: Pair, verdict: Verdict)
  {
    && v'.redis.stock == v.redis.stock && v'.redis.members == v.redis.members && v'.queue == v.queue
    && (verdict == Transient ==> v'.redis == v.redis && (v'.db == v.db || v'.db == AfterMessage(v, p).db))
    && (verdict != Transient ==> verdict == VerdictOf(v, p) && v'.db == AfterMessage(v, p).db)
  }

  /** Only an accepted grab publishes; a refusal before the script leaves the slots alone. */
  predicate GrabHandled(v: View, v': View, p: Pair, a: Answer)
  {
    var grabbed := Grab(v.redis, p, v.now);
    && v'.db == v.db
    && (Core(v'.redis) == Core(v.redis) || Core(v'.redis) == Core(grabbed))
    && (a == NotExist || a == Over || a == OwnGood || a == Busy ==> Core(v'.redis) == Core(v.redis))
    && (a == Accepted ==> GrabReplyOf(v.redis, p) == GrabOk && Core(v'.redis) == Core(grabbed))
    && (v'.queue == v.queue || (a == Accepted && v'.queue == v.queue + multiset{p}))
  }

  /** Taking a lock first changes nothing about how a grab was handled. */
  lemma LockGrabHandled(v: View, locked: View, v': View, p: Pair, a: Answer)
    requires locked == v.(redis := v.redis.(locks := locked.redis.locks), nextId := locked.nextId)
    requires GrabHandled(locked, v', p, a)
    ensures GrabHandled(v, v', p, a)
  {
  }

  predicate Refuses(r: Reply) { r == NoOrder || r == NotOwner || r == Changed }

  /** Tables first: without a confirmed payment nothing in Redis is touched. */
  predicate PayHandled(v: View, v': View, o: int, u: int, r: Reply)
  {
    && v'.redis == v.redis.(closeAt := v'.redis.closeAt)
    && (r == Fine ==> v'.db == T.PayOrder(v.db, o, u))
    && (r == Broken ==> v'.redis == v.redis && (v'.db == v.db || v'.db == T.PayOrder(v.db, o, u)))
    && (Refuses(r) ==> v' == v)
  }

  /** The slot of an ended order is back, or still out; nothing else of the slots has moved. */
  predicate SlotMayBeBack(v: View, v': View, o: int)
  {
    && v'.redis.members == v.redis.members && v'.redis.pending == v.redis.pending
    && (v'.redis.stock == v.redis.stock ||
        (o in v.db.orders && v'.redis.stock == ReleaseSlot(v.redis, v.db.orders[o].good).stock))
  }

  /** Tables first: without a confirmed cancel no slot is given back. */
  predicate CancelHandled(v: View, v': View, o: int, u: int, r: Reply)
  {
    && (r == Fine ==> v'.db == T.CancelOrder(v.db, o, u) && SlotMayBeBack(v, v', o))
    && (r == Broken ==> v'.redis == v.redis && (v'.db == v.db || v'.db == T.CancelOrder(v.db, o, u)))
    && (Refuses(r) ==> v' == v)
  }

  /** Tables first again; a close that was not confirmed keeps its entry. */
  predicate CloseHandled(v: View, v': View, o: int, retired: bool)
  {
    var closed := T.EndOrder(v.db, o, Closed, v.now);
    if retired then
      && v'.db == closed
      && (if T.CanLeavePending(v.db, o) then SlotMayBeBack(v, v', o) else Core(v'.redis) == Core(v.redis))
    else v'.redis == v.redis && (v'.db == v.db || v'.db == closed)
  }
}
