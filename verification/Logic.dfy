/**
 The business layer: request handlers, consumer and scanners, written against the
 stores.  Between any two store operations everybody else may act, and any
 operation may fail, or take effect without an answer.
 */
module Logic {
  import opened Model
  import opened RedisKeys
  import opened Effects
  import opened Shared
  import opened SortedSets
  import opened Stores
  import Sets
  import T = OrderTables
  import B = Backoff

  const SCAN_INTERVAL: int := 10 * SECOND

  /** What leaves the module besides the order queue. */
  class Outgoing {
    var mail: multiset<Notice>         // notification queue
    var owedNotices: multiset<Notice>  // compensation rows
    var owedCloses: set<int>
    ghost var faults: nat              // operations that failed, or whose answer was lost

    constructor ()
      ensures mail == multiset{} && owedNotices == multiset{} && owedCloses == {} && faults == 0
    {
      mail, owedNotices, owedCloses, faults := multiset{}, multiset{}, {}, 0;
    }
  }

  class Backend {
    const alone: bool                    // nobody interferes
    const reliable: bool                 // nothing fails
    const calm: bool := alone && reliable
    const mysql: MySql
    const redis: RedisServer
    const backoff: B.Counter
    const out: Outgoing
    var users: set<int>
    var queue: multiset<Pair>
    var nextId: int
    var now: int
    ghost var terms: map<int, int>  // how many slots each good was published with
    ghost var claimed: set<int>     // dead orders whose slot some handler still has to give back
    ghost var returned: set<int>    // dead orders whose slot is back in the stock

    ghost function Here(): View
      reads this, mysql, redis
    {
      View(mysql.Tables(), users, redis.Keys(), queue, nextId, now, terms, claimed, returned)
    }

    ghost predicate Valid()
      reads this, mysql, redis
    {
      Sound(Here())
    }

    /** What has gone out so far: notices, compensation rows, and failures on the way. */
    ghost function Out(): Outbox
      reads out
    {
      Outbox(out.mail, out.owedNotices, out.owedCloses, out.faults)
    }

    constructor (alone: bool, reliable: bool, mysql: MySql, redis: RedisServer, users: set<int>, nextId: int, now: int,
                 ghost terms: map<int, int>)
      requires Sound(View(mysql.Tables(), users, redis.Keys(), multiset{}, nextId, now, terms, {}, {}))
      ensures Valid() && this.alone == alone && this.reliable == reliable && this.mysql == mysql && this.redis == redis
      ensures queue == multiset{} && this.users == users && this.nextId == nextId && this.now == now
      ensures fresh(backoff) && backoff.failures == 0 && fresh(out)
      ensures out.mail == multiset{} && out.owedNotices == multiset{} && out.owedCloses == {}
    {
      this.alone, this.reliable, this.mysql, this.redis := alone, reliable, mysql, redis;
      backoff := new B.Counter();
      out := new Outgoing();
      this.users, this.nextId, this.now := users, nextId, now;
      this.terms, claimed, returned := terms, {}, {};
      queue := multiset{};
    }

    // ---- Failure and interference ----------------------------------------------------------

    method Succeeds() returns (ok: bool)
      modifies out`faults
      ensures out.faults == old(out.faults) + (if ok then 0 else 1)
      ensures reliable ==> ok
    {
      ok := *;
      if reliable {
        ok := true;
      }
      out.faults := out.faults + (if ok then 0 else 1);
    }

    /** Whether an operation takes effect, and whether the caller learns that it did. */
    method Attempt() returns (done: bool, seen: bool)
      modifies out`faults
      ensures seen ==> done
      ensures out.faults == old(out.faults) + (if seen then 0 else 1)
      ensures reliable ==> seen
    {
      done := *;
      seen := *;
      if reliable {
        done, seen := true, true;
      }
      seen := done && seen;
      out.faults := out.faults + (if seen then 0 else 1);
    }

    /** Whatever other handlers, scanners, users and clocks do in the meantime.  Callers
        know no more of it than this contract.  Slots claimed by the caller stay its own. */
    method Others(ghost mine: set<int> := {})
      requires Valid() && mine <= claimed
      modifies this, mysql, redis, out
      ensures Valid() && Onward(old(Here()), Here()) && mine <= claimed && out.faults == old(out.faults)
      ensures alone ==> unchanged(this, mysql, redis, out)
    {
    }

    // ---- Best-effort steps --------------------------------------------------------------------

    /** Only for a participation that needs no further message. */
    method ClearPendingGrabQuietly(p: Pair)
      requires Valid() && p in redis.members && Settled(Here(), p)
      modifies this, mysql, redis, out
      ensures Valid() && Onward(old(Here()), Here())
      ensures calm ==> Here() == old(Here()).(redis := ClearMark(old(redis.Keys()), p))
      ensures alone ==> Here() == old(Here()) || Here() == old(Here()).(redis := ClearMark(old(redis.Keys()), p))
      ensures alone ==> Silent(old(Out()), Out())
      ensures reliable ==> out.faults == old(out.faults)
    {
      ghost var start := Here();
      Others();
      ghost var before := Here();
      SettledStays(start, Here(), p);
      var done, seen := Attempt();
      if done {
        OtherKeysAreSound(Here(), ClearMark(redis.Keys(), p));
        redis.RemoveGrabPending(p);
        OnwardTwice(start, before, Here());
      }
    }

    /** Publish a notice; if that fails, leave a compensation row behind. */
    method NotifyBestEffort(n: Notice)
      requires Valid()
      modifies this, mysql, redis, out
      ensures Valid() && Onward(old(Here()), Here())
      ensures alone ==> Here() == old(Here()) && out.owedCloses == old(out.owedCloses)
      ensures alone ==> Sends(old(Out()), Out(), {n}) && Told(old(Out()), Out(), n)
      ensures reliable ==> out.faults == old(out.faults)
    {
      Others();
      var done, seen := Attempt();
      if done {
        out.mail := out.mail + multiset{n};
      }
      if !seen {
        var noted := Succeeds();
        if noted {
          out.owedNotices := out.owedNotices + multiset{n};
        }
      }
    }

    /** Schedule the timeout close; if that fails, leave a compensation row behind. */
    method ScheduleCloseBestEffort(o: int)
      requires Valid()
      modifies this, mysql, redis, out
      ensures Valid() && Onward(old(Here()), Here())
      ensures calm ==> Here() == old(Here()).(redis := ScheduleClose(old(redis.Keys()), o, now))
      ensures alone ==>
                Here() == old(Here()) || Here() == old(Here()).(redis := ScheduleClose(old(redis.Keys()), o, now))
      ensures alone ==> out.mail == old(out.mail) && out.owedNotices == old(out.owedNotices)
      ensures old(out.faults) <= out.faults
      ensures alone ==> out.owedCloses == old(out.owedCloses) || out.owedCloses == old(out.owedCloses) + {o}
      ensures alone ==> o in redis.closeAt || o in out.owedCloses || old(out.faults) + 2 <= out.faults
      ensures reliable ==> out.faults == old(out.faults)
    {
      ghost var start := Here();
      Others();
      ghost var before := Here();
      var done, seen := Attempt();
      if done {
        OtherKeysAreSound(Here(), ScheduleClose(redis.Keys(), o, now));
        redis.EnqueueOrderClose(o, now);
        OnwardTwice(start, before, Here());
      }
      if !seen {
        var noted := Succeeds();
        if noted {
          out.owedCloses := out.owedCloses + {o};
        }
      }
    }

    method RemoveCloseTaskQuietly(o: int)
      requires Valid()
      modifies this, mysql, redis, out
      ensures Valid() && Onward(old(Here()), Here())
      ensures calm ==> Here() == old(Here()).(redis := UnscheduleClose(old(redis.Keys()), o))
      ensures alone ==> Here() == old(Here()) || Here() == old(Here()).(redis := UnscheduleClose(old(redis.Keys()), o))
      ensures alone ==> Silent(old(Out()), Out())
      ensures reliable ==> out.faults == old(out.faults)
    {
      ghost var start := Here();
      Others();
      ghost var before := Here();
      var done, seen := Attempt();
      if done {
        OtherKeysAreSound(Here(), UnscheduleClose(redis.Keys(), o));
        redis.RemoveOrderClose(o);
        OnwardTwice(start, before, Here());
      }
    }

    /** Only for an order the caller has ended, and only once. */
    method ReleaseSlotBestEffort(o: int, g: int)
      requires Valid() && o in claimed && mysql.orders[o].good == g
      modifies this, mysql, redis, out
      ensures Valid() && Onward(old(Here()), Here())
      ensures calm ==> Here() == AfterRelease(old(Here()), o)
      ensures alone ==> Here() == old(Here()) || Here() == AfterRelease(old(Here()), o)
      ensures alone ==> Silent(old(Out()), Out())
      ensures reliable ==> out.faults == old(out.faults)
    {
      ghost var start := Here();
      Others({o});
      ghost var before := Here();
      var done, seen := Attempt();
      if done {
        ReleaseIsSound(Here(), o);
        redis.ReleaseGroupBuySlot(g);
        claimed, returned := claimed - {o}, returned + {o};
        OnwardTwice(start, before, Here());
      }
    }

    /** Tell everybody who is signed up for a good, and its publisher, once each. */
    method NotifyGroupBuyEvent(g: int, publisher: int, c: Category)
      requires Valid()
      modifies this, mysql, redis, out
      ensures Valid() && Onward(old(Here()), Here())
      ensures alone ==> Here() == old(Here())
      ensures alone ==> out.owedCloses == old(out.owedCloses)
      ensures alone ==> Sends(old(Out()), Out(), Letters(g, Recipients(mysql.Tables(), g, publisher), c))
      ensures reliable ==> out.faults == old(out.faults)
    {
      ghost var start := Here();
      Others();
      var answered := Succeeds();
      if !answered {
        return;
      }
      var rest := Recipients(mysql.Tables(), g, publisher);
      ghost var all := rest;
      while rest != {}
        invariant Valid() && Onward(start, Here()) && rest <= all
        invariant alone ==> Here() == start
        invariant alone ==> out.owedCloses == old(out.owedCloses)
        invariant alone ==> Sends(old(Out()), Out(), Letters(g, all - rest, c))
        invariant reliable ==> out.faults == old(out.faults)
        decreases rest
      {
        ghost var before := Here();
        ghost var sent, told := Out(), all - rest;
        var u := Sets.Pick(rest);
        rest := rest - {u};
        NotifyBestEffort(Notice(u, c, g));
        OnwardTwice(start, before, Here());
        assert all - rest == told + {u};
        if alone {
          OneMoreLetter(old(Out()), sent, Out(), g, told, u, c);
        }
      }
      assert all - {} == all;
    }

    // ---- Consumer -----------------------------------------------------------------------------

    /** Write the order.  Whoever learns that it wrote it also does what follows from it. */
    method InsertOrder(p: Pair, publisher: int, seen: bool) returns (v: Verdict)
      requires Valid() && p in redis.members && (reliable ==> seen)
      requires alone ==> p.good in mysql.goods && mysql.goods[p.good].publisher == publisher && p.user in users
      modifies this, mysql, redis, out
      ensures Valid() && Onward(old(Here()), Here())
      ensures HasOrder(mysql.Tables(), p)
      ensures v == if !seen then Transient else if HasOrder(old(mysql.Tables()), p) then Duplicate else Created
      ensures calm ==> Here() == AfterMessage(old(Here()), p)
      ensures alone ==> MessageHandled(old(Here()), Here(), p, v)
      ensures alone ==> OwesAtMost(old(Out()), Out(), if v == Created then {old(nextId)} else {})
      ensures alone && v == Created ==> CloseIsSeenTo(Here(), Out(), old(nextId)) || old(out.faults) + 2 <= out.faults
      ensures alone ==> MessageSent(old(Here()), old(Out()), Out(), p, v)
      ensures reliable ==> out.faults == old(out.faults)
    {
      ghost var start := Here();
      var o, fits, succeeded := WriteOrder(p);
      ghost var written := Here();
      if !seen {
        return Transient;
      }
      ClearAndFollowUp(o, p, publisher, fits, succeeded);
      OrderStays(written, Here(), p);
      OnwardTwice(start, written, Here());
      return if fits then Created else Duplicate;
    }

    /** The mark first, whatever the transaction said; the rest only for a new order. */
    method ClearAndFollowUp(o: int, p: Pair, publisher: int, fits: bool, succeeded: bool)
      requires Valid() && p in redis.members && HasOrder(mysql.Tables(), p)
      modifies this, mysql, redis, out
      ensures Valid() && Onward(old(Here()), Here())
      ensures var cleared := ClearMark(old(redis.Keys()), p);
              calm ==> Here() == old(Here()).(redis := if fits then ScheduleClose(cleared, o, now) else cleared)
      ensures alone ==> Here() == old(Here()).(redis := redis.Keys())
      ensures alone ==> redis.stock == old(redis.stock) && redis.members == old(redis.members)
      ensures alone ==> OwesAtMost(old(Out()), Out(), if fits then {o} else {})
      ensures alone && fits ==> CloseIsSeenTo(Here(), Out(), o) || old(out.faults) + 2 <= out.faults
      ensures alone && !fits ==> Silent(old(Out()), Out())
      ensures alone && fits ==>
                Sends(old(Out()), Out(), FollowUpLetters(mysql.Tables(), o, p, publisher, succeeded))
      ensures alone && fits ==> Told(old(Out()), Out(), Notice(p.user, TellPendingPay, o))
      ensures reliable ==> out.faults == old(out.faults)
    {
      ghost var start := Here();
      ClearPendingGrabQuietly(p);
      if fits {
        ghost var cleared, quiet := Here(), Out();
        FollowUp(o, p, publisher, succeeded);
        OnwardTwice(start, cleared, Here());
        if alone {
          FollowUpSent(old(Out()), quiet, Out(), FollowUpLetters(mysql.Tables(), o, p, publisher, succeeded),
                       Notice(p.user, TellPendingPay, o));
        }
      }
    }

    /** The transaction, with a fresh order number. */
    method WriteOrder(p: Pair) returns (o: int, fits: bool, succeeded: bool)
      requires Valid() && p in redis.members
      modifies this, mysql
      ensures Valid() && Onward(old(Here()), Here()) && HasOrder(mysql.Tables(), p)
      ensures o == old(nextId) && (fits <==> !HasOrder(old(mysql.Tables()), p))
      ensures Here() == old(Here()).(db := T.CreateOrder(old(mysql.Tables()), o, p, now), nextId := o + 1)
      ensures fits ==> (succeeded <==> T.Completes(old(mysql.Tables()), p.good))
    {
      o := nextId;
      CreateIsSound(Here(), o, p);
      nextId := nextId + 1;
      var r := mysql.CreateOrderTx(o, p, now);
      fits, succeeded := r.Done?, r.Done? && r.succeeded;
    }

    /** Timeout close, payment notice and, for the order that completed the group, the good news. */
    method FollowUp(o: int, p: Pair, publisher: int, succeeded: bool)
      requires Valid()
      modifies this, mysql, redis, out
      ensures Valid() && Onward(old(Here()), Here())
      ensures calm ==> Here() == old(Here()).(redis := ScheduleClose(old(redis.Keys()), o, now))
      ensures alone ==>
                Here() == old(Here()) || Here() == old(Here()).(redis := ScheduleClose(old(redis.Keys()), o, now))
      ensures alone ==> OwesAtMost(old(Out()), Out(), {o})
      ensures alone ==> CloseIsSeenTo(Here(), Out(), o) || old(out.faults) + 2 <= out.faults
      ensures alone ==> Sends(old(Out()), Out(), FollowUpLetters(mysql.Tables(), o, p, publisher, succeeded))
      ensures alone ==> Told(old(Out()), Out(), Notice(p.user, TellPendingPay, o))
      ensures reliable ==> out.faults == old(out.faults)
    {
      ghost var start, first := Here(), Out();
      ScheduleCloseBestEffort(o);
      ghost var scheduled, second := Here(), Out();
      NotifyBestEffort(Notice(p.user, TellPendingPay, o));
      OnwardTwice(start, scheduled, Here());
      ghost var told, third := Here(), Out();
      ghost var news: set<Notice> := {};
      if succeeded {
        NotifyGroupBuyEvent(p.good, publisher, TellSucceeded);
        OnwardTwice(start, told, Here());
        news := Letters(p.good, Recipients(mysql.Tables(), p.good, publisher), TellSucceeded);
      }
      if alone {
        FollowUpSends(first, second, third, Out(), Notice(p.user, TellPendingPay, o), news);
      }
    }

    /** One create message, from the look-ups to the follow-up. */
    method CreateOrderByMessage(p: Pair) returns (v: Verdict)
      requires Valid() && p in redis.members
      modifies this, mysql, redis, out
      ensures Valid() && Onward(old(Here()), Here())
      ensures v != Transient ==> Settled(Here(), p)
      ensures v == Created || v == Duplicate ==> HasOrder(mysql.Tables(), p)
      ensures calm ==> v != Transient && Here() == AfterMessage(old(Here()), p)
      ensures alone ==> MessageHandled(old(Here()), Here(), p, v)
      ensures alone ==> OwesAtMost(old(Out()), Out(), if v == Created then {old(nextId)} else {})
      ensures alone && v == Created ==> CloseIsSeenTo(Here(), Out(), old(nextId)) || old(out.faults) + 2 <= out.faults
      ensures alone ==> MessageSent(old(Here()), old(Out()), Out(), p, v)
      ensures alone && v == Transient ==> old(out.faults) < out.faults
      ensures reliable ==> out.faults == old(out.faults)
    {
      ghost var start := Here();
      Others();
      var answered := Succeeds();
      if !answered {
        return Transient;
      }
      ghost var read := Here();
      if p.good !in mysql.goods {
        ClearPendingGrabQuietly(p);
        OnwardTwice(start, read, Here());
        SettledStays(read, Here(), p);
        return NoGood;
      }
      var publisher := mysql.goods[p.good].publisher;
      v := CreateForGood(p, publisher);
      OnwardTwice(start, read, Here());
    }

    method CreateForGood(p: Pair, publisher: int) returns (v: Verdict)
      requires Valid() && p in redis.members
      requires alone ==> p.good in mysql.goods && mysql.goods[p.good].publisher == publisher
      modifies this, mysql, redis, out
      ensures Valid() && Onward(old(Here()), Here())
      ensures v != Transient ==> Settled(Here(), p)
      ensures v == Created || v == Duplicate ==> HasOrder(mysql.Tables(), p)
      ensures calm ==> v != Transient && Here() == AfterMessage(old(Here()), p)
      ensures alone ==> MessageHandled(old(Here()), Here(), p, v)
      ensures alone ==> OwesAtMost(old(Out()), Out(), if v == Created then {old(nextId)} else {})
      ensures alone && v == Created ==> CloseIsSeenTo(Here(), Out(), old(nextId)) || old(out.faults) + 2 <= out.faults
      ensures alone ==> MessageSent(old(Here()), old(Out()), Out(), p, v)
      ensures alone && v == Transient ==> old(out.faults) < out.faults
      ensures reliable ==> out.faults == old(out.faults)
    {
      ghost var start := Here();
      Others();
      var answered := Succeeds();
      if !answered {
        return Transient;
      }
      ghost var read := Here();
      if p.user !in users {
        ClearPendingGrabQuietly(p);
        OnwardTwice(start, read, Here());
        SettledStays(read, Here(), p);
        return NoUser;
      }
      Others();
      OnwardTwice(start, read, Here());
      ghost var checked := Here();
      var done, seen := Attempt();
      if !done {
        return Transient;
      }
      v := InsertOrder(p, publisher, seen);
      OnwardTwice(start, checked, Here());
    }

    /** One delivery: handled, classified, then acknowledged or put back. */
    method Dispatch(p: Pair) returns (acked: bool)
      requires Valid() && p in queue
      modifies this, mysql, redis, out, backoff
      ensures Valid() && Onward(old(Here()), Here())
      ensures acked ==> Settled(Here(), p)
      ensures backoff.failures == if acked then 0 else old(backoff.failures) + 1
      ensures calm ==> acked && Here() == AfterMessage(old(Here()).(queue := old(queue) - multiset{p}), p)
      ensures alone ==> queue == old(queue) || (acked && queue == old(queue) - multiset{p})
      ensures alone && !acked ==> redis.Keys() == old(redis.Keys())
      ensures alone ==> Sends(old(Out()), Out(), CreationLetters(old(Here()).(queue := old(queue) - multiset{p}), p))
      ensures reliable ==> out.faults == old(out.faults)
    {
      ghost var start := Here();
      QueueIsSound(Here(), queue - multiset{p});
      queue := queue - multiset{p};
      ghost var delivered := Here();
      var v := CreateOrderByMessage(p);
      OnwardTwice(start, delivered, Here());
      ghost var handled, sent := Here(), Out();
      acked := v != Transient;
      Conclude(p, acked);
      OnwardTwice(start, handled, Here());
      if alone {
        MessageSends(delivered, old(Out()), sent, p, v);
        SendsThenSilent(old(Out()), sent, Out(), CreationLetters(delivered, p));
      }
      if acked {
        SettledStays(handled, Here(), p);
      }
    }

    /** Acknowledges, or waits and puts back; a lost acknowledgement puts back, too. */
    method Conclude(p: Pair, acked: bool)
      requires Valid() && p in redis.members
      modifies this, mysql, redis, out, backoff
      ensures Valid() && Onward(old(Here()), Here())
      ensures backoff.failures == if acked then 0 else old(backoff.failures) + 1
      ensures calm && acked ==> Here() == old(Here())
      ensures alone ==> Here() == old(Here()).(queue := queue)
      ensures alone ==> queue == old(queue) + multiset{p} || (acked && queue == old(queue))
      ensures alone ==> Silent(old(Out()), Out())
      ensures reliable ==> out.faults == old(out.faults)
    {
      var back := !acked;
      if acked {
        var done, seen := Attempt();
        backoff.Reset();
        back := !done;
      } else {
        var wait := backoff.Next();
        Others();
      }
      if back {
        ghost var start, returning := old(Here()), Here();
        Requeue(p);
        OnwardTwice(start, returning, Here());
      }
    }

    method Requeue(p: Pair)
      requires Valid() && p in redis.members
      modifies `queue
      ensures Valid() && Onward(old(Here()), Here()) && queue == old(queue) + multiset{p}
    {
      QueueIsSound(Here(), queue + multiset{p});
      queue := queue + multiset{p};
    }

    // ---- Grab ------------------------------------------------------------------------------------

    /** Checks, lock, pre-deduct, publish, unlock. */
    method GrabGroupBuy(p: Pair) returns (a: Answer, ghost read: View, ghost ran: View)
      requires Valid()
      modifies this, mysql, redis, out
      ensures Valid() && Onward(old(Here()), Here())
      ensures a == Accepted || a == AlreadyIn ==>
                p in redis.members && (p in redis.pending || Settled(Here(), p))
      ensures Onward(old(Here()), read) && Onward(read, ran) && Onward(ran, Here())
      ensures AnswerIsRight(a, p, read, ran)
      ensures a == Unavailable && p.user in ran.users ==> old(out.faults) < out.faults
      ensures calm ==> a == AnswerOf(old(Here()), p)
      ensures calm ==>
                Here() == AfterGrab(old(Here()), p, PassesChecks(old(Here()), p) && p.good !in old(redis.locks), nextId)
      ensures alone ==> GrabHandled(old(Here()), Here(), p, a)
      ensures alone ==> Silent(old(Out()), Out())
      ensures alone && a == Accepted ==> queue == old(queue) + multiset{p} || old(out.faults) < out.faults
      ensures reliable ==> out.faults == old(out.faults)
    {
      ghost var start := Here();
      var passed;
      a, passed := CheckGood(p);
      read, ran := Here(), Here();
      if !passed {
        return;
      }
      ReaderIsOutsider(read, p);
      a, ran := GrabAsUser(p);
      OnwardTwice(start, read, Here());
    }

    /** The look-up of the user, then the lock and the script. */
    method GrabAsUser(p: Pair) returns (a: Answer, ghost ran: View)
      requires Valid() && IsOutsider(Here(), p)
      modifies this, mysql, redis, out
      ensures Valid() && Onward(old(Here()), Here()) && Onward(old(Here()), ran) && Onward(ran, Here())
      ensures a == Accepted || a == AlreadyIn ==> p in redis.members
      ensures if a == Busy then p.good in ran.redis.locks else ScriptAnswers(a, p, ran)
      ensures a == Unavailable && p.user in ran.users ==> old(out.faults) < out.faults
      ensures var v := old(Here());
              calm ==> a == if p.user !in v.users then Unavailable else if p.good in v.redis.locks then Busy
                            else AnswerOfScript(v.redis, p)
      ensures calm ==> Here() == AfterGrab(old(Here()), p, p.user in old(users) && p.good !in old(redis.locks), nextId)
      ensures alone ==> GrabHandled(old(Here()), Here(), p, a)
      ensures alone ==> Silent(old(Out()), Out())
      ensures alone && a == Accepted ==> queue == old(queue) + multiset{p} || old(out.faults) < out.faults
      ensures reliable ==> out.faults == old(out.faults)
    {
      ghost var start := Here();
      Others();
      ran := Here();
      var answered := Succeeds();
      if !answered || p.user !in users {
        return Unavailable, ran;
      }
      ghost var found := Here();
      StaysOutsider(start, found, p);
      a, ran := GrabWithLock(p);
      OnwardTwice(start, found, ran);
      OnwardTwice(start, found, Here());
    }

    /** The checks on the row; `a` is the answer to those who do not pass. */
    method CheckGood(p: Pair) returns (a: Answer, passed: bool)
      requires Valid()
      modifies this, mysql, redis, out
      ensures Valid() && Onward(old(Here()), Here())
      ensures if passed then TakesIn(mysql.Tables(), now, p) else a !in {Accepted, AlreadyIn, Busy}
      ensures !passed ==> AnswerIsRight(a, p, Here(), Here())
      ensures a == Unavailable && !passed ==> old(out.faults) < out.faults
      ensures old(out.faults) <= out.faults
      ensures calm && !passed ==> a == AnswerOf(old(Here()), p) && !TakesIn(old(mysql.Tables()), old(now), p)
      ensures alone ==> Here() == old(Here()) && Silent(old(Out()), Out())
      ensures reliable ==> out.faults == old(out.faults)
    {
      Others();
      var answered := Succeeds();
      if !answered {
        return Unavailable, false;
      }
      if p.good !in mysql.goods {
        return NotExist, false;
      }
      var row := mysql.goods[p.good];
      if row.status == Full {
        return Answer.SoldOut, false;
      }
      if row.status != Recruiting || now > row.deadline {
        return Over, false;
      }
      if row.publisher == p.user {
        return OwnGood, false;
      }
      return Accepted, true;
    }

    method AcquireLock(g: int) returns (token: int, seen: bool, ok: bool, ghost tried: View)
      requires Valid()
      modifies this, mysql, redis, out
      ensures Valid() && Onward(old(Here()), Here())
      ensures Onward(old(Here()), tried) && Onward(tried, Here()) && (seen && !ok ==> g in tried.redis.locks)
      ensures if seen then out.faults == old(out.faults) else old(out.faults) < out.faults
      ensures calm ==> seen && ok == (g !in old(redis.locks))
      ensures calm ==> Here() == old(Here()).(redis := TakeLock(old(redis.Keys()), g, token), nextId := nextId)
      ensures alone ==> Here() == old(Here()).(redis := old(redis.Keys()).(locks := redis.locks), nextId := nextId)
      ensures alone ==> Silent(old(Out()), Out())
      ensures reliable ==> out.faults == old(out.faults)
    {
      ghost var start := Here();
      Others();
      ghost var before := Here();
      token := nextId;
      TimeIsSound(Here(), nextId + 1, now);
      nextId := nextId + 1;
      OnwardTwice(start, before, Here());
      tried := Here();
      var done;
      done, seen := Attempt();
      ok := false;
      if done {
        OtherKeysAreSound(Here(), TakeLock(redis.Keys(), g, token));
        ok := redis.AcquireLock(g, token);
        OnwardTwice(start, tried, Here());
      }
    }

    /** The lock only turns rivals away early; what it guards is safe without it. */
    method GrabWithLock(p: Pair) returns (a: Answer, ghost ran: View)
      requires Valid() && IsOutsider(Here(), p)
      modifies this, mysql, redis, out
      ensures Valid() && Onward(old(Here()), Here())
      ensures a == Accepted || a == AlreadyIn ==> p in redis.members
      ensures Onward(old(Here()), ran) && Onward(ran, Here())
      ensures if a == Busy then p.good in ran.redis.locks else ScriptAnswers(a, p, ran)
      ensures a == Unavailable ==> old(out.faults) < out.faults
      ensures calm ==> a == if p.good in old(redis.locks) then Busy else AnswerOfScript(old(redis.Keys()), p)
      ensures calm ==> Here() == AfterGrab(old(Here()), p, p.good !in old(redis.locks), nextId)
      ensures alone ==> GrabHandled(old(Here()), Here(), p, a)
      ensures alone ==> Silent(old(Out()), Out())
      ensures alone && a == Accepted ==> queue == old(queue) + multiset{p} || old(out.faults) < out.faults
      ensures reliable ==> out.faults == old(out.faults)
    {
      ghost var start := Here();
      var token, seen, ok;
      token, seen, ok, ran := AcquireLock(p.good);
      if !seen {
        return Unavailable, ran;
      }
      if !ok {
        return Busy, ran;
      }
      ghost var locked := Here();
      StaysOutsider(start, locked, p);
      a, ran := GrabLocked(p, token);
      OnwardTwice(start, locked, ran);
      OnwardTwice(start, locked, Here());
      if calm {
        LockLeavesNoTrace(start.redis, p, token, start.now);
      }
      if alone {
        LockGrabHandled(start, locked, Here(), p, a);
      }
    }

    /** Pre-deduct, then unlock. */
    method GrabLocked(p: Pair, token: int) returns (a: Answer, ghost ran: View)
      requires Valid() && IsOutsider(Here(), p)
      modifies this, mysql, redis, out
      ensures Valid() && Onward(old(Here()), Here())
      ensures a == Accepted || a == AlreadyIn ==> p in redis.members
      ensures Onward(old(Here()), ran) && Onward(ran, Here()) && ScriptAnswers(a, p, ran)
      ensures a == Unavailable ==> old(out.faults) < out.faults
      ensures calm ==> a == AnswerOfScript(old(redis.Keys()), p)
      ensures calm ==> Here() == AfterUnlock(AfterGrab(old(Here()), p, true, nextId), p.good, token)
      ensures alone ==> GrabHandled(old(Here()), Here(), p, a)
      ensures alone ==> Silent(old(Out()), Out())
      ensures alone && a == Accepted ==> queue == old(queue) + multiset{p} || old(out.faults) < out.faults
      ensures reliable ==> out.faults == old(out.faults)
    {
      ghost var start := Here();
      a, ran := PreDeduct(p);
      ghost var grabbed := Here();
      FreeLockQuietly(p.good, token);
      OnwardTwice(ran, grabbed, Here());
      OnwardTwice(start, ran, Here());
    }

    /** Pre-deduct and publish.  A pre-deduct is never taken back, whether or not the
        message got through. */
    method PreDeduct(p: Pair) returns (a: Answer, ghost ran: View)
      requires Valid() && IsOutsider(Here(), p)
      modifies this, mysql, redis, out
      ensures Valid() && Onward(old(Here()), Here())
      ensures a == Accepted || a == AlreadyIn ==> p in redis.members
      ensures Onward(old(Here()), ran) && Onward(ran, Here()) && ScriptAnswers(a, p, ran)
      ensures a == Unavailable ==> old(out.faults) < out.faults
      ensures calm ==> a == AnswerOfScript(old(redis.Keys()), p)
      ensures calm ==> Here() == AfterGrab(old(Here()), p, true, nextId)
      ensures alone ==> GrabHandled(old(Here()), Here(), p, a)
      ensures alone ==> Silent(old(Out()), Out())
      ensures alone && a == Accepted ==> queue == old(queue) + multiset{p} || old(out.faults) < out.faults
      ensures reliable ==> out.faults == old(out.faults)
    {
      ghost var start := Here();
      var done, seen, reply;
      done, seen, reply, ran := RunScript(p);
      if !seen {
        return Unavailable, ran;
      }
      if reply == Already {
        return AlreadyIn, ran;
      }
      if reply == GrabReply.SoldOut {
        return Answer.SoldOut, ran;
      }
      ghost var deducted := Here();
      var published := PublishBestEffort(p);
      OnwardTwice(ran, deducted, Here());
      OnwardTwice(start, ran, Here());
      return Accepted, ran;
    }

    /** The script itself, at moment `ran`. */
    method RunScript(p: Pair) returns (done: bool, seen: bool, reply: GrabReply, ghost ran: View)
      requires Valid() && IsOutsider(Here(), p)
      modifies this, mysql, redis, out
      ensures Valid() && Onward(old(Here()), ran) && Onward(ran, Here()) && Onward(old(Here()), Here())
      ensures seen ==> done && reply == GrabReplyOf(ran.redis, p)
      ensures done && reply != GrabReply.SoldOut ==> p in redis.members
      ensures if seen then out.faults == old(out.faults) else old(out.faults) < out.faults
      ensures alone ==> ran == old(Here()) && Silent(old(Out()), Out())
      ensures alone ==> Here() == if done then ran.(redis := Grab(ran.redis, p, ran.now)) else ran
      ensures reliable ==> seen
    {
      ghost var start := Here();
      Others();
      ran := Here();
      reply := GrabReply.SoldOut;
      done, seen := Attempt();
      if done {
        StaysOutsider(start, ran, p);
        GrabIsSound(ran, p);
        reply := redis.ExecGrabLua(p, now);
        OnwardTwice(start, ran, Here());
      }
    }

    /** Publish a create message; the error, if any, is left to the reconciler. */
    method PublishBestEffort(p: Pair) returns (seen: bool)
      requires Valid() && p in redis.members
      modifies this, mysql, redis, out
      ensures Valid() && Onward(old(Here()), Here())
      ensures calm ==> seen
      ensures alone ==> Here() == old(Here()).(queue := old(queue) + multiset{p}) || (!seen && Here() == old(Here()))
      ensures alone ==> Silent(old(Out()), Out())
      ensures if seen then out.faults == old(out.faults) else old(out.faults) < out.faults
      ensures old(out.faults) <= out.faults && (reliable ==> out.faults == old(out.faults))
    {
      ghost var start := Here();
      Others();
      ghost var publishing := Here();
      var done;
      done, seen := Attempt();
      if done {
        QueueIsSound(Here(), queue + multiset{p});
        queue := queue + multiset{p};
        OnwardTwice(start, publishing, Here());
      }
    }

    method FreeLockQuietly(g: int, token: int)
      requires Valid()
      modifies this, mysql, redis, out
      ensures Valid() && Onward(old(Here()), Here())
      ensures calm ==> Here() == old(Here()).(redis := ReleaseLock(old(redis.Keys()), g, token))
      ensures alone ==> Here() == old(Here()).(redis := old(redis.Keys()).(locks := redis.locks))
      ensures alone ==> Silent(old(Out()), Out())
      ensures old(out.faults) <= out.faults && (reliable ==> out.faults == old(out.faults))
    {
      ghost var start := Here();
      Others();
      ghost var before := Here();
      var done, seen := Attempt();
      if done {
        OtherKeysAreSound(Here(), ReleaseLock(redis.Keys(), g, token));
        var released := redis.FreeLock(g, token);
        OnwardTwice(start, before, Here());
      }
    }

    /** Polling: membership first, then the order. */
    method GetGrabStatus(p: Pair) returns (a: Progress)
      requires Valid()
      modifies this, mysql, redis, out
      ensures Valid() && Onward(old(Here()), Here())
      ensures a == NotGrabbed ==> p !in old(redis.members)
      ensures a == InProgress ==> p in redis.members && !HasOrder(old(mysql.Tables()), p)
      ensures a.Ordered? ==> p in redis.members && a.order in mysql.orders && mysql.orders[a.order].Key() == p
      ensures alone ==> Here() == old(Here())
      ensures calm ==> a != Unknown && (a == NotGrabbed <==> p !in redis.members)
      ensures calm ==> (a.Ordered? <==> HasOrder(mysql.Tables(), p))
      ensures alone ==> Silent(old(Out()), Out())
      ensures reliable ==> out.faults == old(out.faults)
    {
      ghost var start := Here();
      Others();
      var answered := Succeeds();
      if !answered {
        return Unknown;
      }
      if p !in redis.members {
        return NotGrabbed;
      }
      ghost var member := Here();
      Others();
      OnwardTwice(start, member, Here());
      answered := Succeeds();
      if !answered {
        return Unknown;
      }
      if exists o :: o in mysql.orders && mysql.orders[o].Key() == p {
        var o :| o in mysql.orders && mysql.orders[o].Key() == p;
        return Ordered(o);
      }
      if HasOrder(old(mysql.Tables()), p) {
        OrderStays(start, Here(), p);
      }
      return InProgress;
    }

    // ---- Pay, cancel, timeout close --------------------------------------------------------------

    /** The look-up that tells the refusals apart; the guarded update decides. */
    method CheckOrder(o: int, u: int) returns (r: Reply)
      requires Valid()
      modifies this, mysql, redis, out
      ensures Valid() && Onward(old(Here()), Here())
      ensures r == NoOrder ==> o !in old(mysql.orders)
      ensures r == NotOwner ==> o in mysql.orders && mysql.orders[o].user != u
      ensures r == Changed ==> o in mysql.orders && mysql.orders[o].user == u && mysql.orders[o].status != PendingPay
      ensures r == Fine ==> o in mysql.orders && mysql.orders[o].user == u
      ensures alone ==> Here() == old(Here()) && (r == Broken || r == ReplyOf(mysql.Tables(), o, u))
      ensures calm ==> r != Broken
      ensures alone ==> Silent(old(Out()), Out())
      ensures reliable ==> out.faults == old(out.faults)
    {
      Others();
      var answered := Succeeds();
      if !answered {
        return Broken;
      }
      if o !in mysql.orders {
        return NoOrder;
      }
      if mysql.orders[o].user != u {
        return NotOwner;
      }
      if mysql.orders[o].status != PendingPay {
        return Changed;
      }
      return Fine;
    }

    method PayOrder(o: int, u: int) returns (r: Reply)
      requires Valid()
      modifies this, mysql, redis, out
      ensures Valid() && Onward(old(Here()), Here())
      ensures r == NoOrder ==> o !in old(mysql.orders)
      ensures r == NotOwner ==> o in mysql.orders && mysql.orders[o].user != u
      ensures r == Changed ==> o in mysql.orders && mysql.orders[o].user == u && mysql.orders[o].status != PendingPay
      ensures r == Fine ==> o in mysql.orders && mysql.orders[o].user == u && mysql.orders[o].status == Paid
      ensures r == Fine && o in old(mysql.orders) ==> old(mysql.orders)[o].status == PendingPay
      ensures calm ==> r == ReplyOf(old(mysql.Tables()), o, u)
      ensures calm ==> Here() == if r == Fine then AfterPay(old(Here()), o, u) else old(Here())
      ensures calm && r == Fine ==> o !in redis.closeAt
      ensures alone ==> PayHandled(old(Here()), Here(), o, u, r)
      ensures alone ==> out.owedCloses == old(out.owedCloses)
      ensures alone ==> SentIf(r == Fine, old(Out()), Out(), Notice(u, TellPaid, o))
      ensures calm ==> out.mail == if r == Fine then old(out.mail) + multiset{Notice(u, TellPaid, o)} else old(out.mail)
      ensures reliable ==> out.faults == old(out.faults)
    {
      ghost var start := Here();
      r := CheckOrder(o, u);
      if r != Fine {
        return;
      }
      ghost var looked := Here();
      r := TryPay(o, u);
      OnwardTwice(start, looked, Here());
      if r != Fine {
        return;
      }
      ghost var paid, quiet := Here(), Out();
      DropAndTell(o, Notice(u, TellPaid, o));
      if alone {
        SentAfter(old(Out()), quiet, Out(), Notice(u, TellPaid, o));
      }
      OnwardTwice(start, paid, Here());
    }

    /** Close task gone, notice out, in this order. */
    method DropAndTell(o: int, n: Notice)
      requires Valid()
      modifies this, mysql, redis, out
      ensures Valid() && Onward(old(Here()), Here())
      ensures calm ==> Here() == old(Here()).(redis := UnscheduleClose(old(redis.Keys()), o))
      ensures alone ==> Here() == old(Here()) || Here() == old(Here()).(redis := UnscheduleClose(old(redis.Keys()), o))
      ensures alone ==> out.owedCloses == old(out.owedCloses)
      ensures alone ==> SentIf(true, old(Out()), Out(), n)
      ensures reliable ==> out.faults == old(out.faults)
    {
      ghost var start := Here();
      RemoveCloseTaskQuietly(o);
      ghost var dropped, quiet := Here(), Out();
      NotifyBestEffort(n);
      OnwardTwice(start, dropped, Here());
      if alone {
        SentAfter(old(Out()), quiet, Out(), n);
      }
    }

    /** The guarded update. */
    method TryPay(o: int, u: int) returns (r: Reply)
      requires Valid() && o in mysql.orders && mysql.orders[o].user == u
      modifies this, mysql, redis, out
      ensures Valid() && Onward(old(Here()), Here())
      ensures r == Fine || r == Changed || r == Broken
      ensures r == Fine ==>
                o in mysql.orders && mysql.orders[o].status == Paid && old(mysql.orders)[o].status == PendingPay
      ensures r == Changed ==> o in mysql.orders && mysql.orders[o].status != PendingPay
      ensures calm ==> r != Broken
      ensures alone ==> out.mail == old(out.mail) && redis.Keys() == old(redis.Keys())
      ensures alone ==> Here() == old(Here()) || Here() == old(Here()).(db := T.PayOrder(old(mysql.Tables()), o, u))
      ensures alone && r == Fine ==> T.CanPay(old(mysql.Tables()), o, u)
      ensures alone && r == Fine ==> mysql.Tables() == T.PayOrder(old(mysql.Tables()), o, u)
      ensures alone && r == Changed ==> !T.CanPay(old(mysql.Tables()), o, u)
      ensures alone ==> Silent(old(Out()), Out())
      ensures reliable ==> out.faults == old(out.faults)
    {
      ghost var start := Here();
      Others();
      ghost var before := Here();
      var done, seen := Attempt();
      if !done {
        return Broken;
      }
      PayIsSound(Here(), o, u);
      var ok := mysql.UpdateOrderPaid(o, u);
      OnwardTwice(start, before, Here());
      return if !seen then Broken else if ok then Fine else Changed;
    }

    method CancelOrder(o: int, u: int) returns (r: Reply)
      requires Valid()
      modifies this, mysql, redis, out
      ensures Valid() && Onward(old(Here()), Here())
      ensures r == NoOrder ==> o !in old(mysql.orders)
      ensures r == NotOwner ==> o in mysql.orders && mysql.orders[o].user != u
      ensures r == Changed ==> o in mysql.orders && mysql.orders[o].user == u && mysql.orders[o].status != PendingPay
      ensures r == Fine ==> o in mysql.orders && mysql.orders[o].user == u && mysql.orders[o].status == Cancelled
      ensures r == Fine && o in old(mysql.orders) ==> old(mysql.orders)[o].status == PendingPay
      ensures calm ==> r == ReplyOf(old(mysql.Tables()), o, u)
      ensures calm ==> Here() == if r == Fine then AfterEnd(old(Here()), o, Cancelled, 0) else old(Here())
      ensures calm && r == Fine ==> o !in redis.closeAt
      ensures alone ==> CancelHandled(old(Here()), Here(), o, u, r)
      ensures alone ==> out.owedCloses == old(out.owedCloses)
      ensures alone ==> SentIf(r == Fine, old(Out()), Out(), Notice(u, TellCancelled, o))
      ensures calm ==>
                out.mail == if r == Fine then old(out.mail) + multiset{Notice(u, TellCancelled, o)} else old(out.mail)
      ensures reliable ==> out.faults == old(out.faults)
    {
      ghost var start := Here();
      r := CheckOrder(o, u);
      if r != Fine {
        return;
      }
      ghost var looked := Here();
      var good;
      r, good := TryCancel(o, u);
      OnwardTwice(start, looked, Here());
      if r != Fine {
        return;
      }
      ghost var cancelled, quiet := Here(), Out();
      GiveUp(o, good, Notice(u, TellCancelled, o));
      if alone {
        SentAfter(old(Out()), quiet, Out(), Notice(u, TellCancelled, o));
      }
      OnwardTwice(start, cancelled, Here());
    }

    /** The cancel transaction; winning it makes the freed slot the caller's to give back. */
    method TryCancel(o: int, u: int) returns (r: Reply, good: int)
      requires Valid() && o in mysql.orders && mysql.orders[o].user == u
      modifies this, mysql, redis, out
      ensures Valid() && Onward(old(Here()), Here())
      ensures r == Fine || r == Changed || r == Broken
      ensures r == Fine ==> o in claimed && o in mysql.orders && mysql.orders[o].good == good
      ensures r == Fine ==> mysql.orders[o].status == Cancelled && old(mysql.orders)[o].status == PendingPay
      ensures r == Changed ==> o in mysql.orders && mysql.orders[o].status != PendingPay
      ensures calm ==> r != Broken
      ensures alone ==> out.mail == old(out.mail) && redis.Keys() == old(redis.Keys())
      ensures alone ==> Here() == old(Here()) || Here() == AfterCancelTx(old(Here()), o, u)
      ensures alone && r == Fine ==>
                T.CanCancel(old(mysql.Tables()), o, u) && Here() == AfterCancelTx(old(Here()), o, u)
      ensures alone && r == Changed ==> !T.CanCancel(old(mysql.Tables()), o, u) && Here() == old(Here())
      ensures alone ==> Silent(old(Out()), Out())
      ensures reliable ==> out.faults == old(out.faults)
    {
      ghost var start := Here();
      good := 0;
      Others();
      ghost var before := Here();
      var done, seen := Attempt();
      if !done {
        return Broken, good;
      }
      CancelIsSound(Here(), o, u);
      var ok;
      good, ok := mysql.CancelOrderTx(o, u);
      claimed := claimed + Ended(ok, o);
      OnwardTwice(start, before, Here());
      return if !seen then Broken else if ok then Fine else Changed, good;
    }

    /** After a cancel or close: slot back, close task gone, notice out, in this order. */
    method GiveUp(o: int, good: int, n: Notice)
      requires Valid() && o in claimed && mysql.orders[o].good == good
      modifies this, mysql, redis, out
      ensures Valid() && Onward(old(Here()), Here())
      ensures calm ==> Here() == AfterGiveUp(old(Here()), o)
      ensures alone ==> mysql.Tables() == old(mysql.Tables()) && SlotMayBeBack(old(Here()), Here(), o)
      ensures alone ==> out.owedCloses == old(out.owedCloses)
      ensures alone ==> SentIf(true, old(Out()), Out(), n)
      ensures reliable ==> out.faults == old(out.faults)
    {
      ghost var start := Here();
      ReleaseSlotBestEffort(o, good);
      ghost var released, quiet := Here(), Out();
      DropAndTell(o, n);
      OnwardTwice(start, released, Here());
      if alone {
        SentAfter(old(Out()), quiet, Out(), n);
      }
    }

    /** One due close task.  A database error keeps its entry; anything else retires it. */
    method CloseOne(o: int) returns (retired: bool)
      requires Valid()
      modifies this, mysql, redis, out
      ensures Valid() && Onward(old(Here()), Here())
      ensures retired && o in old(mysql.orders) ==> mysql.orders[o].status != PendingPay
      ensures calm ==> retired && Here() == AfterClose(old(Here()), o)
      ensures alone ==> CloseHandled(old(Here()), Here(), o, retired)
      ensures alone ==> out.owedCloses == old(out.owedCloses) && OthersAsBefore(old(mysql.Tables()), mysql.Tables(), o)
      ensures alone ==> Sends(old(Out()), Out(), ClosingLetters(old(mysql.Tables()), [o]))
      ensures alone && retired && T.CanLeavePending(old(mysql.Tables()), o) ==>
                Told(old(Out()), Out(), Notice(old(mysql.orders)[o].user, TellClosed, o))
      ensures reliable ==> out.faults == old(out.faults)
    {
      ghost var start := Here();
      var good, user, closed;
      retired, good, user, closed := TryClose(o);
      ghost var ended, quiet := Here(), Out();
      if retired {
        FinishClose(o, good, user, closed);
        OnwardTwice(start, ended, Here());
      }
      if alone {
        EndLeavesOthers(old(mysql.Tables()), o, old(now));
        ClosingSent(old(mysql.Tables()), old(Out()), quiet, Out(), o, retired);
      }
    }

    /** Whether this call closed the order or found it ended, its task is done. */
    method FinishClose(o: int, good: int, user: int, closed: bool)
      requires Valid() && (closed ==> o in claimed && mysql.orders[o].good == good)
      modifies this, mysql, redis, out
      ensures Valid() && Onward(old(Here()), Here())
      ensures var v := old(Here());
              calm ==> Here() == if closed then AfterGiveUp(v, o) else v.(redis := UnscheduleClose(v.redis, o))
      ensures alone ==> mysql.Tables() == old(mysql.Tables())
      ensures alone && closed ==> SlotMayBeBack(old(Here()), Here(), o)
      ensures alone && !closed ==> Core(redis.Keys()) == Core(old(redis.Keys()))
      ensures alone ==> out.owedCloses == old(out.owedCloses)
      ensures alone ==> SentIf(closed, old(Out()), Out(), Notice(user, TellClosed, o))
      ensures reliable ==> out.faults == old(out.faults)
    {
      if closed {
        GiveUp(o, good, Notice(user, TellClosed, o));
      } else {
        RemoveCloseTaskQuietly(o);
      }
    }

    /** The guarded update of a timeout close; winning it makes the freed slot the caller's. */
    method TryClose(o: int) returns (answered: bool, good: int, user: int, closed: bool)
      requires Valid()
      modifies this, mysql, redis, out
      ensures Valid() && Onward(old(Here()), Here())
      ensures answered && o in mysql.orders ==> mysql.orders[o].status != PendingPay
      ensures closed ==>
                o in claimed && o in mysql.orders && mysql.orders[o].good == good && mysql.orders[o].user == user
      ensures alone ==> Here() == old(Here()) || Here() == AfterCloseTx(old(Here()), o)
      ensures alone && answered ==> Here() == AfterCloseTx(old(Here()), o)
      ensures alone && answered ==> (closed <==> T.CanLeavePending(old(mysql.Tables()), o))
      ensures calm ==> answered
      ensures alone ==> Silent(old(Out()), Out())
      ensures !answered ==> old(out.faults) < out.faults
      ensures reliable ==> out.faults == old(out.faults)
    {
      ghost var start := Here();
      good, user, closed := 0, 0, false;
      Others();
      ghost var before := Here();
      var done;
      done, answered := Attempt();
      if done {
        CloseIsSound(Here(), o);
        good, user, closed := mysql.CloseExpiredOrder(o, now);
        claimed := claimed + Ended(closed, o);
        OnwardTwice(start, before, Here());
      }
    }

    // ---- Scanners ----------------------------------------------------------------------------------

    /** One page of due close tasks. */
    method CloseExpiredOrders() returns (ghost page: seq<int>)
      requires Valid()
      modifies this, mysql, redis, out
      ensures Valid() && Onward(old(Here()), Here())
      ensures calm ==> LowestFirst(old(redis.closeAt), Unix(old(now)), SCAN_LIMIT, page)
      ensures calm ==> Here() == AfterCloses(old(Here()), page)
      ensures alone ==> out.owedCloses == old(out.owedCloses)
      ensures alone ==> Sends(old(Out()), Out(), ClosingLetters(old(mysql.Tables()), page))
      ensures calm ==> out.mail == old(out.mail) + multiset(ClosingLetters(old(mysql.Tables()), page))
      ensures reliable ==> out.faults == old(out.faults)
    {
      ghost var start := Here();
      Others();
      page := [];
      var answered := Succeeds();
      if !answered {
        return;
      }
      ghost var listing := Here();
      var due := RangeByScore(redis.closeAt, Unix(now), SCAN_LIMIT);
      page := due;
      ghost var quiet := Out();
      CloseAll(due);
      if alone {
        SilentThenSends(old(Out()), quiet, Out(), ClosingLetters(start.db, due));
      }
      if calm {
        AllSent(old(Out()), Out(), ClosingLetters(start.db, due));
      }
      OnwardTwice(start, listing, Here());
    }

    method CloseAll(due: seq<int>)
      requires Valid() && Distinct(due)
      modifies this, mysql, redis, out
      ensures Valid() && Onward(old(Here()), Here())
      ensures calm ==> Here() == AfterCloses(old(Here()), due)
      ensures alone ==> out.owedCloses == old(out.owedCloses)
      ensures alone ==> Sends(old(Out()), Out(), ClosingLetters(old(mysql.Tables()), due))
      ensures reliable ==> out.faults == old(out.faults)
    {
      ghost var start := Here();
      for i := 0 to |due|
        invariant Valid() && Onward(start, Here())
        invariant calm ==> Here() == AfterCloses(start, due[..i])
        invariant alone ==> out.owedCloses == old(out.owedCloses)
        invariant alone ==> Untouched(start.db, mysql.Tables(), due, i)
        invariant alone ==> Sends(old(Out()), Out(), ClosingLetters(start.db, due[..i]))
        invariant reliable ==> out.faults == old(out.faults)
      {
        ghost var before, sent := Here(), Out();
        assert due[..i + 1][..i] == due[..i];
        CloseQuietly(due[i]);
        OnwardTwice(start, before, Here());
        if alone {
          OneMoreClosing(old(Out()), sent, Out(), start.db, before.db, mysql.Tables(), due, i);
        }
      }
      assert due[..|due|] == due;
    }

    method CloseQuietly(o: int)
      requires Valid()
      modifies this, mysql, redis, out
      ensures Valid() && Onward(old(Here()), Here())
      ensures calm ==> Here() == AfterClose(old(Here()), o)
      ensures alone ==> out.owedCloses == old(out.owedCloses) && OthersAsBefore(old(mysql.Tables()), mysql.Tables(), o)
      ensures alone ==> Sends(old(Out()), Out(), ClosingLetters(old(mysql.Tables()), [o]))
      ensures reliable ==> out.faults == old(out.faults)
    {
      var retired := CloseOne(o);
    }

    /** Publish the message again; renew the mark only if that worked. */
    method RepublishPendingGrab(p: Pair) returns (seen: bool)
      requires Valid() && p in redis.members
      modifies this, mysql, redis, out
      ensures Valid() && Onward(old(Here()), Here())
      ensures calm ==> queue == old(queue) + multiset{p}
      ensures calm ==> Here() == old(Here()).(queue := queue, redis := RenewMark(old(redis.Keys()), p, now))
      ensures alone && seen ==> queue == old(queue) + multiset{p}
      ensures alone ==> mysql.Tables() == old(mysql.Tables()) && (!seen ==> redis.Keys() == old(redis.Keys()))
      ensures alone ==> Silent(old(Out()), Out())
      ensures reliable ==> out.faults == old(out.faults)
    {
      ghost var start := Here();
      seen := PublishBestEffort(p);
      if !seen {
        return;
      }
      ghost var published := Here();
      RenewQuietly(p);
      OnwardTwice(start, published, Here());
    }

    method RenewQuietly(p: Pair)
      requires Valid() && p in redis.members
      modifies this, mysql, redis, out
      ensures Valid() && Onward(old(Here()), Here())
      ensures calm ==> Here() == old(Here()).(redis := RenewMark(old(redis.Keys()), p, now))
      ensures alone ==> Here() == old(Here()) || Here() == old(Here()).(redis := RenewMark(old(redis.Keys()), p, now))
      ensures alone ==> Silent(old(Out()), Out())
      ensures reliable ==> out.faults == old(out.faults)
    {
      ghost var start := Here();
      Others();
      ghost var before := Here();
      var done, heard := Attempt();
      if done {
        OtherKeysAreSound(Here(), RenewMark(redis.Keys(), p, now));
        redis.RenewGrabPending(p, now);
        OnwardTwice(start, before, Here());
      }
    }

    /** One page of marks that have stood too long. */
    method ReconcilePendingGrabs() returns (ghost page: seq<Pair>)
      requires Valid()
      modifies this, mysql, redis, out
      ensures Valid() && Onward(old(Here()), Here())
      ensures calm ==> LowestFirst(old(redis.pending), Unix(old(now) - PENDING_TIMEOUT), SCAN_LIMIT, page)
      ensures calm ==> Here() == AfterResend(old(Here()), page)
      ensures alone ==> Silent(old(Out()), Out())
      ensures reliable ==> out.faults == old(out.faults)
    {
      ghost var start := Here();
      Others();
      page := [];
      var answered := Succeeds();
      if !answered {
        return;
      }
      ghost var listing := Here();
      var stale := RangeByScore(redis.pending, Unix(now - PENDING_TIMEOUT), SCAN_LIMIT);
      page := stale;
      ResendAll(stale);
      OnwardTwice(start, listing, Here());
    }

    method ResendAll(stale: seq<Pair>)
      requires Valid() && forall p :: p in stale ==> p in redis.members
      modifies this, mysql, redis, out
      ensures Valid() && Onward(old(Here()), Here())
      ensures calm ==> Here() == AfterResend(old(Here()), stale)
      ensures alone ==> Silent(old(Out()), Out())
      ensures reliable ==> out.faults == old(out.faults)
    {
      ghost var start := Here();
      for i := 0 to |stale|
        invariant Valid() && Onward(start, Here())
        invariant calm ==> Here() == AfterResend(start, stale[..i])
        invariant alone ==> Silent(old(Out()), Out())
        invariant reliable ==> out.faults == old(out.faults)
      {
        ghost var before := Here();
        assert stale[..i + 1][..i] == stale[..i];
        assert stale[i] in stale && stale[i] in old(redis.members);
        var seen := RepublishPendingGrab(stale[i]);
        OnwardTwice(start, before, Here());
      }
      assert stale[..|stale|] == stale;
    }

    // ---- Recovery ------------------------------------------------------------------------------------

    method DrainOne(p: Pair)
      requires Valid() && calm && p in queue
      modifies this, mysql, redis, out, backoff
      ensures Valid() && Onward(old(Here()), Here())
      ensures queue == old(queue) - multiset{p} && Drained(old(Here()), Here(), {p})
    {
      MessageDrains(Here().(queue := queue - multiset{p}), p);
      var acked := Dispatch(p);
    }

    /** The consumer works through everything that is in the queue. */
    method DrainQueue()
      requires Valid() && calm
      modifies this, mysql, redis, out, backoff
      ensures Valid() && Onward(old(Here()), Here())
      ensures queue == multiset{} && Drained(old(Here()), Here(), set p | p in old(queue))
    {
      ghost var start := Here();
      ghost var done: set<Pair> := {};
      assert redis.pending - {} == redis.pending;
      while queue != multiset{}
        invariant Valid() && Onward(start, Here()) && Drained(start, Here(), done) && queue <= start.queue
        invariant forall p :: p in start.queue <==> p in queue || p in done
        decreases |queue|
      {
        ghost var before := Here();
        var p :| p in queue;
        DrainOne(p);
        OnwardTwice(start, before, Here());
        DrainedTwice(start, before, Here(), done, {p});
        done := done + {p};
      }
      assert done == set p | p in start.queue;
    }

    method NextTick()
      requires Valid()
      modifies `now
      ensures Valid() && Onward(old(Here()), Here()) && now == old(now) + SCAN_INTERVAL
    {
      Idle(1);
    }

    /** A reconcile round after which the consumer catches up: the listed marks are gone,
        no other mark has changed, and members and stock are as before. */
    method RecoveryRound() returns (ghost page: seq<Pair>)
      requires Valid() && calm
      modifies this, mysql, redis, out, backoff
      ensures Valid() && Onward(old(Here()), Here())
      ensures LowestFirst(old(redis.pending), Unix(old(now) - PENDING_TIMEOUT), SCAN_LIMIT, page)
      ensures Shrinks(old(redis.pending), redis.pending) && forall p :: p in page ==> p !in redis.pending
      ensures redis.members == old(redis.members) && redis.stock == old(redis.stock)
      ensures queue == multiset{} && now == old(now) + SCAN_INTERVAL
    {
      ghost var start := Here();
      page := ReconcilePendingGrabs();
      ResendRenews(start, page);
      ghost var reconciled := Here();
      DrainQueue();
      OnwardTwice(start, reconciled, Here());
      ghost var drained := Here();
      NextTick();
      OnwardTwice(start, drained, Here());
    }

    /** With n expired marks, k failure-free rounds leave at most n - 1000 k of them, and
        every participation whose mark is gone has its order or no target. */
    method RecoveryRounds(k: nat)
      requires Valid() && calm
      modifies this, mysql, redis, out, backoff
      ensures Valid() && Onward(old(Here()), Here())
      ensures var low := Unix(old(now) - PENDING_TIMEOUT);
              && |Older(redis.pending, low)| <= LeftAfter(|Older(old(redis.pending), low)|, k)
              && (forall p :: p in Older(old(redis.pending), low) && p !in redis.pending ==> Settled(Here(), p))
              && (|Older(old(redis.pending), low)| <= 1000 * k ==>
                    forall p :: p in Older(old(redis.pending), low) ==> Settled(Here(), p))
      ensures redis.members == old(redis.members) && redis.stock == old(redis.stock)
      ensures forall g ::
                T.Waiting(redis.members, mysql.Tables(), g) <= T.Waiting(redis.members, old(mysql.Tables()), g)
    {
      ghost var start := Here();
      ghost var low := Unix(now - PENDING_TIMEOUT);
      for i := 0 to k
        invariant Valid() && Onward(start, Here()) && old(now) <= now
        invariant Shrinks(old(redis.pending), redis.pending)
        invariant |Older(redis.pending, low)| <= LeftAfter(|Older(old(redis.pending), low)|, i)
        invariant redis.members == old(redis.members) && redis.stock == old(redis.stock)
      {
        label before:
        var page := RecoveryRound();
        OnwardTwice(start, old@before(Here()), Here());
        UnixGrows(old(now) - PENDING_TIMEOUT, old@before(now) - PENDING_TIMEOUT);
        PageShrinksBatch(old@before(redis.pending), redis.pending, Unix(old@before(now) - PENDING_TIMEOUT), low, page,
                         |Older(old(redis.pending), low)|, i);
      }
      BatchSettled(old(redis.pending), low, old(redis.members), k);
      forall g ensures T.Waiting(redis.members, mysql.Tables(), g) <= T.Waiting(redis.members, old(mysql.Tables()), g) {
        WaitingShrinks(old(Here()), Here(), g);
      }
    }

    /** Whatever was lost before, once 31 seconds have passed and as many failure-free rounds as
        the marks fill pages, every single grab has come to its order, or has no target. */
    method RecoverEverybody(k: nat)
      requires Valid() && calm && |redis.pending.Keys| <= 1000 * k
      modifies this, mysql, redis, out, backoff
      ensures Valid() && Onward(old(Here()), Here()) && redis.members == old(redis.members)
      ensures forall p :: p in redis.members ==> Settled(Here(), p)
    {
      ghost var start := Here();
      Idle(4);
      ghost var waited := Here();
      AllMarksExpire(start, waited.now);
      RecoveryRounds(k);
      OnwardTwice(start, waited, Here());
      MarkedOrSettled(start, Here(), start.redis.pending.Keys);
    }

    method Idle(ticks: nat)
      requires Valid()
      modifies `now
      ensures Valid() && Onward(old(Here()), Here())
      ensures Here() == old(Here()).(now := old(now) + ticks * SCAN_INTERVAL)
    {
      ghost var start := Here();
      now := now + ticks * SCAN_INTERVAL;
      TimeIsSound(start, nextId, now);
    }

    /** A mark that is gone was cleared for a reason. */
    lemma BatchSettled(z: map<Pair, int>, low: int, members: set<Pair>, k: nat)
      requires Valid() && Shrinks(z, redis.pending) && redis.members == members
      requires forall p :: p in z ==> p in members
      requires |Older(redis.pending, low)| <= LeftAfter(|Older(z, low)|, k)
      ensures forall p :: p in Older(z, low) && p !in redis.pending ==> Settled(Here(), p)
      ensures |Older(z, low)| <= 1000 * k ==> forall p :: p in Older(z, low) ==> Settled(Here(), p)
    {
      if |Older(z, low)| <= 1000 * k {
        assert Older(redis.pending, low) == {};
        forall p | p in Older(z, low) ensures p !in redis.pending {
          assert p !in Older(redis.pending, low);
        }
      }
    }

    /** With n due close tasks, k failure-free rounds leave at most n - 1000 k of them, and
        no retired one belongs to an order that still waits for payment. */
    method CloseRounds(k: nat)
      requires Valid() && calm
      modifies this, mysql, redis, out
      ensures Valid() && Onward(old(Here()), Here())
      ensures var low := Unix(old(now));
              && |Older(redis.closeAt, low)| <= LeftAfter(|Older(old(redis.closeAt), low)|, k)
              && forall o :: o in old(redis.closeAt) && o !in redis.closeAt && o in old(mysql.orders) ==>
                   mysql.orders[o].status != PendingPay
    {
      ghost var start := Here();
      ghost var low := Unix(now);
      for i := 0 to k
        invariant Valid() && Onward(start, Here()) && old(now) <= now
        invariant Shrinks(old(redis.closeAt), redis.closeAt)
        invariant |Older(redis.closeAt, low)| <= LeftAfter(|Older(old(redis.closeAt), low)|, i)
        invariant forall o :: o in old(redis.closeAt) && o !in redis.closeAt && o in old(mysql.orders) ==>
                    mysql.orders[o].status != PendingPay
      {
        label before:
        var page := CloseRound();
        OnwardTwice(start, old@before(Here()), Here());
        UnixGrows(old(now), old@before(now));
        PageShrinksBatch(old@before(redis.closeAt), redis.closeAt, Unix(old@before(now)), low, page,
                         |Older(old(redis.closeAt), low)|, i);
      }
    }

    method CloseRound() returns (ghost page: seq<int>)
      requires Valid() && calm
      modifies this, mysql, redis, out
      ensures Valid() && Onward(old(Here()), Here())
      ensures LowestFirst(old(redis.closeAt), Unix(old(now)), SCAN_LIMIT, page)
      ensures redis.closeAt == old(redis.closeAt) - (set o | o in page)
      ensures forall o :: o in page && o in mysql.orders ==> mysql.orders[o].status != PendingPay
      ensures now == old(now) + SCAN_INTERVAL
    {
      ghost var start := Here();
      page := CloseExpiredOrders();
      ClosesRetire(start, page);
      ghost var closed := Here();
      NextTick();
      OnwardTwice(start, closed, Here());
    }

    // ---- Deadline judgement --------------------------------------------------------------------------

    /** Judge every good past its deadline, then tell everybody concerned. */
    method JudgeExpiredGroupBuys() returns (ghost failed: seq<int>)
      requires Valid()
      modifies this, mysql, redis, out
      ensures Valid() && Onward(old(Here()), Here())
      ensures calm ==> mysql.goods.Keys == old(mysql.goods).Keys
      ensures calm ==> forall g :: g in mysql.goods ==> mysql.goods[g] == Judged(old(mysql.goods)[g], now)
      ensures calm ==> redis.Keys() == old(redis.Keys()) && mysql.orders == old(mysql.orders)
      ensures alone ==> forall g :: g in failed ==> T.CanFail(old(mysql.Tables()), g, old(now))
      ensures calm ==> forall g :: g in failed <==> T.CanFail(old(mysql.Tables()), g, old(now))
      ensures alone ==> Sends(old(Out()), Out(), VerdictLetters(mysql.Tables(), failed, TellFailed))
      ensures calm ==> out.mail == old(out.mail) + multiset(VerdictLetters(mysql.Tables(), failed, TellFailed))
      ensures alone ==> out.owedCloses == old(out.owedCloses)
      ensures reliable ==> out.faults == old(out.faults)
    {
      ghost var start := Here();
      var hits, late, ok := JudgeAll();
      failed := hits;
      ghost var judged, quiet := Here(), Out();
      if ok {
        TellVerdict(hits, TellFailed);
        ghost var told, sent := Here(), Out();
        TellVerdict(late, TellSucceeded);
        OnwardTwice(judged, told, Here());
        OnwardTwice(start, judged, Here());
        if alone {
          VerdictSends(old(Out()), quiet, sent, Out(), VerdictLetters(mysql.Tables(), hits, TellFailed));
        }
      } else if alone {
        SilentSends(old(Out()), Out());
      }
    }

    /** Both branches, without the notices. */
    method JudgeAll() returns (hits: seq<int>, late: seq<int>, ok: bool)
      requires Valid()
      modifies this, mysql, redis, out
      ensures Valid() && Onward(old(Here()), Here()) && Distinct(hits) && late == [] && (!ok ==> hits == [])
      ensures alone ==> forall g :: g in hits ==> T.CanFail(old(mysql.Tables()), g, old(now))
      ensures calm ==> ok && forall g :: g in hits <==> T.CanFail(old(mysql.Tables()), g, old(now))
      ensures calm ==> Here() == AfterFails(old(Here()), hits)
      ensures calm ==> redis.Keys() == old(redis.Keys()) && mysql.orders == old(mysql.orders)
      ensures calm ==> mysql.goods.Keys == old(mysql.goods).Keys
      ensures calm ==> forall g :: g in mysql.goods ==> mysql.goods[g] == Judged(old(mysql.goods)[g], old(now))
      ensures alone ==> Silent(old(Out()), Out())
      ensures if ok then old(out.faults) <= out.faults else old(out.faults) < out.faults
      ensures reliable ==> out.faults == old(out.faults)
    {
      ghost var start := Here();
      late := [];
      ghost var round;
      hits, ok, round := FailDue();
      if !ok {
        return;
      }
      ghost var half := Here();
      late, ok := SucceedDue();
      OnwardTwice(start, half, Here());
      if !ok {
        hits := [];
      }
      if calm {
        NoneSucceedsLate(start);
        FailsTouchTheirRows(start, hits);
        FailsJudge(start, hits);
      }
    }

    lemma NoneSucceedsLate(v: View)
      requires Sound(v)
      ensures forall g :: !T.CanSucceedLate(v.db, g, v.now)
    {
      forall g ensures !T.CanSucceedLate(v.db, g, v.now) {
        JudgeIsSound(v, g);
      }
    }

    /** First branch: select, then fail row by row.  A database error anywhere ends the round. */
    method FailDue() returns (ids: seq<int>, ok: bool, ghost round: Round)
      requires Valid()
      modifies this, mysql, redis, out
      ensures Valid() && Onward(old(Here()), Here())
      ensures Distinct(ids) && (!ok ==> ids == [])
      ensures alone ==> round.listed == old(Here())
      ensures alone ==> forall g :: g in ids ==> T.CanFail(old(mysql.Tables()), g, old(now))
      ensures ok ==> RoundOf(old(Here()), round, ids, Here())
      ensures ok ==> forall g :: g in ids ==> IsOver(mysql.Tables(), g)
      ensures calm ==> ok && Here() == AfterFails(old(Here()), ids)
      ensures calm ==> forall g :: g in ids <==> T.CanFail(old(mysql.Tables()), g, old(now))
      ensures alone ==> Silent(old(Out()), Out()) && now == old(now)
      ensures if ok then old(out.faults) <= out.faults else old(out.faults) < out.faults
      ensures reliable ==> out.faults == old(out.faults)
    {
      ghost var start := Here();
      Others();
      ghost var listed := Here();
      round := Round(listed, [], []);
      var answered := Succeeds();
      if !answered {
        return [], false, round;
      }
      var due := mysql.Candidates(now, true);
      ghost var moments;
      ids, ok, moments := FailAll(due);
      OnwardTwice(start, listed, Here());
      round := Round(listed, due, moments);
      if ok {
        HitsAreDistinct(due, moments);
        forall g | g in ids ensures IsOver(mysql.Tables(), g) {
          HitsHaveFailed(listed, due, moments, Here(), g);
        }
      }
    }

    method FailAll(due: seq<int>) returns (ids: seq<int>, ok: bool, ghost moments: seq<View>)
      requires Valid() && Distinct(due)
      requires calm ==> forall i :: 0 <= i < |due| ==> T.CanFail(mysql.Tables(), due[i], now)
      modifies this, mysql, redis, out
      ensures Valid() && Onward(old(Here()), Here())
      ensures Distinct(ids) && (!ok ==> ids == [])
      ensures ok ==> |moments| == |due| && InTurn(old(Here()), due, moments, Here()) && ids == Hits(due, moments)
      ensures calm ==> ok && ids == due && Here() == AfterFails(old(Here()), due)
      ensures alone ==> Silent(old(Out()), Out()) && now == old(now)
      ensures if ok then old(out.faults) <= out.faults else old(out.faults) < out.faults
      ensures reliable ==> out.faults == old(out.faults)
    {
      ghost var start := Here();
      ids, ok, moments := [], true, [];
      for i := 0 to |due|
        invariant Valid() && Onward(start, Here()) && ok
        invariant old(out.faults) <= out.faults && (alone ==> Silent(old(Out()), Out()) && now == old(now))
        invariant reliable ==> out.faults == old(out.faults)
        invariant |moments| == i && InTurn(start, due[..i], moments, Here()) && ids == Hits(due[..i], moments)
        invariant calm ==> ids == due[..i] && Here() == AfterFails(start, due[..i])
      {
        ghost var before := Here();
        OneMoreFails(start, due, i);
        var hit;
        ghost var moment;
        hit, ok, moment := FailOne(due[i]);
        OnwardTwice(start, before, Here());
        if !ok {
          return [], false, [];
        }
        OneMoreInTurn(start, due[..i], moments, before, due[i], moment, Here());
        moments := moments + [moment];
        if hit {
          ids := ids + [due[i]];
        }
      }
      assert due[..|due|] == due;
      HitsAreDistinct(due, moments);
    }

    method FailOne(g: int) returns (hit: bool, ok: bool, ghost moment: View)
      requires Valid()
      modifies this, mysql, redis, out
      ensures Valid() && Onward(old(Here()), Here())
      ensures ok ==> Onward(old(Here()), moment) && UpdateIn(moment, g, Here())
      ensures hit ==> T.CanFail(moment.db, g, moment.now)
      ensures ok && !hit ==> !T.CanFail(moment.db, g, moment.now)
      ensures calm ==> ok && (hit <==> T.CanFail(old(mysql.Tables()), g, now))
      ensures calm ==> Here() == old(Here()).(db := T.JudgeFailed(old(mysql.Tables()), g, now))
      ensures alone ==> Silent(old(Out()), Out()) && now == old(now)
      ensures if ok then out.faults == old(out.faults) else old(out.faults) < out.faults
      ensures reliable ==> out.faults == old(out.faults)
    {
      ghost var start := Here();
      Others();
      moment := Here();
      var done, seen := Attempt();
      hit, ok := false, seen;
      if done {
        JudgeIsSound(moment, g);
        hit := mysql.FailIfDue(g, now);
        OnwardTwice(start, moment, Here());
      }
    }

    /** Second branch: whatever happens in between, it never finds a row to flip. */
    method SucceedDue() returns (ids: seq<int>, ok: bool)
      requires Valid()
      modifies this, mysql, redis, out
      ensures Valid() && Onward(old(Here()), Here()) && ids == []
      ensures alone ==> Here() == old(Here())
      ensures calm ==> ok
      ensures alone ==> Silent(old(Out()), Out())
      ensures if ok then old(out.faults) <= out.faults else old(out.faults) < out.faults
      ensures reliable ==> out.faults == old(out.faults)
    {
      ghost var start := Here();
      Others();
      ids, ok := [], true;
      var answered := Succeeds();
      if !answered {
        return [], false;
      }
      var late := mysql.Candidates(now, false);
      for i := 0 to |late|
        invariant Valid() && Onward(start, Here()) && ids == [] && ok
        invariant alone ==> Here() == start
        invariant old(out.faults) <= out.faults && (alone ==> Silent(old(Out()), Out()))
        invariant reliable ==> out.faults == old(out.faults)
      {
        ghost var before := Here();
        var g := late[i];
        var hit;
        hit, ok := SucceedOne(g);
        OnwardTwice(start, before, Here());
        if !ok {
          return [], false;
        }
        if hit {
          ids := ids + [g];
        }
      }
    }

    method SucceedOne(g: int) returns (hit: bool, ok: bool)
      requires Valid()
      modifies this, mysql, redis, out
      ensures Valid() && Onward(old(Here()), Here()) && !hit
      ensures alone ==> Here() == old(Here()) && Silent(old(Out()), Out())
      ensures if ok then out.faults == old(out.faults) else old(out.faults) < out.faults
      ensures reliable ==> ok
    {
      Others();
      hit := false;
      var done;
      done, ok := Attempt();
      if done {
        JudgeIsSound(Here(), g);
        hit := mysql.SucceedIfDue(g, now);
      }
    }

    method TellGood(g: int, c: Category)
      requires Valid()
      modifies this, mysql, redis, out
      ensures Valid() && Onward(old(Here()), Here())
      ensures alone ==> Here() == old(Here()) && out.owedCloses == old(out.owedCloses)
      ensures alone ==> Sends(old(Out()), Out(), Letters(g, Audience(mysql.Tables(), g), c))
      ensures reliable ==> out.faults == old(out.faults)
    {
      ghost var start := Here();
      Others();
      var answered := Succeeds();
      if answered && g in mysql.goods {
        ghost var looking, quiet := Here(), Out();
        NotifyGroupBuyEvent(g, mysql.goods[g].publisher, c);
        OnwardTwice(start, looking, Here());
        if alone {
          SilentThenSends(old(Out()), quiet, Out(), Letters(g, Audience(mysql.Tables(), g), c));
        }
      }
    }

    /** One batch of goods; a good whose row cannot be read is skipped. */
    method TellVerdict(goods: seq<int>, c: Category)
      requires Valid() && Distinct(goods)
      modifies this, mysql, redis, out
      ensures Valid() && Onward(old(Here()), Here())
      ensures alone ==> Here() == old(Here()) && out.owedCloses == old(out.owedCloses)
      ensures alone ==> Sends(old(Out()), Out(), VerdictLetters(mysql.Tables(), goods, c))
      ensures reliable ==> out.faults == old(out.faults)
    {
      ghost var start := Here();
      for i := 0 to |goods|
        invariant Valid() && Onward(start, Here())
        invariant alone ==> Here() == start && out.owedCloses == old(out.owedCloses)
        invariant alone ==> Sends(old(Out()), Out(), VerdictLetters(start.db, goods[..i], c))
        invariant reliable ==> out.faults == old(out.faults)
      {
        ghost var before, sent := Here(), Out();
        TellGood(goods[i], c);
        OnwardTwice(start, before, Here());
        if alone {
          OneMoreVerdict(old(Out()), sent, Out(), start.db, goods, i, c);
        }
      }
      assert goods[..|goods|] == goods;
    }
  }
}
