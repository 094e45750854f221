/**
 What the handlers rely on is what every run of the protocol provides: each state
 is sound, and each later state lies onward.
 */
module Reliance {
  import opened Model
  import opened Protocol
  import opened Invariants
  import Safety
  import Recovery
  import Shared
  import T = OrderTables

  /** The shared stores in a state of the protocol; a slot is claimed while some handler
      has its return still to do. */
  ghost function ViewOf(w: World, h: History): Shared.View
  {
    Shared.View(w.db, w.users, w.redis, w.queue, w.nextId, w.now,
                map g | g in h.terms :: h.terms[g].max,
                set o | o in w.db.orders && ReturnSlot(o) in w.tasks,
                set o | o in w.db.orders && h.facts[SlotReturned(o)] > 0)
  }

  lemma AccountsHold(w: World, h: History)
    requires ReturnsOnce(w, h) && Conserved(w, h)
    ensures Shared.Accounts(ViewOf(w, h))
  {
    var v := ViewOf(w, h);
    forall o | o in w.db.orders && (o in v.claimed || o in v.returned)
      ensures IsDead(v.db, o) && !(o in v.claimed && o in v.returned)
    {
      assert w.tasks[ReturnSlot(o)] + h.facts[SlotReturned(o)] <= Bit(IsDead(w.db, o));
    }
    forall g | g in v.terms ensures Shared.Account(v, g) {
      assert ConservedAt(w.redis, w.db, h.facts, g, h.terms[g].max);
      assert Shared.Holding(v, g) == Unreturned(w.db, h.facts, g);
    }
  }

  lemma RemembranceHolds(w: World, h: History)
    requires QueuesOk(w, h) && NoGrabLost(w)
    ensures Shared.Remembered(ViewOf(w, h))
  {
  }

  lemma TermsHold(w: World, h: History)
    requires Known(w, h) && Recovery.Dated(w) && Recovery.Eligible(w, h)
    ensures Shared.GoodsAreKnown(ViewOf(w, h)) && Shared.MarksAreDated(ViewOf(w, h))
    ensures Shared.MembersAreOutsiders(ViewOf(w, h))
  {
    forall p | p in w.redis.members ensures Shared.IsOutsider(ViewOf(w, h), p) {
      assert Recovery.MayJoin(h, p);
    }
  }

  lemma InvMeansSound(w: World, h: History)
    requires T.DbInv(w.db) && Known(w, h) && QueuesOk(w, h) && NoGrabLost(w) && ReturnsOnce(w, h) && Conserved(w, h)
    requires Recovery.Dated(w) && Recovery.Eligible(w, h)
    ensures Shared.Sound(ViewOf(w, h))
  {
    AccountsHold(w, h);
    RemembranceHolds(w, h);
    TermsHold(w, h);
  }

  lemma GrowthIsOnward(w: World, h: History, w': World, h': History)
    requires Known(w, h) && Known(w', h') && Grows(w, h, w', h')
    ensures Shared.Onward(ViewOf(w, h), ViewOf(w', h'))
  {
  }

  lemma RunsAreSound(r: Run)
    requires Valid(r)
    ensures Shared.Sound(ViewOf(Now(r), Log(r)))
  {
    Safety.RunsKeepInv(r);
    Recovery.RunsAreDated(r);
    Recovery.RunsAreEligible(r);
    InvMeansSound(Now(r), Log(r));
  }

  lemma RunsGoOnward(start: Run, r: Run)
    requires Valid(r) && Continues(r, start)
    ensures Shared.Onward(ViewOf(Now(start), Log(start)), ViewOf(Now(r), Log(r)))
  {
    Safety.RunsGrow(start, r);
    Safety.RunsKeepInv(start);
    Safety.RunsKeepInv(r);
    GrowthIsOnward(Now(start), Log(start), Now(r), Log(r));
  }

  // ---- Claims ------------------------------------------------------------------------------

  /** Since `start`, nobody has carried out, or died with, task t. */
  ghost predicate LeftAlone(start: Run, r: Run, t: Task)
    requires Continues(r, start)
    decreases r
  {
    r == start || (LeftAlone(start, r.before, t) && t !in Carried(r.event))
  }

  lemma StepLeavesTask(w: World, h: History, e: Event, w': World, h': History, t: Task)
    requires Takes(w, h, e, w', h') && t !in Carried(e)
    ensures w.tasks[t] <= w'.tasks[t]
  {
    Taken(w, h, e, w', h');
  }

  lemma {:induction false} TaskStays(start: Run, r: Run, t: Task)
    requires Valid(r) && Continues(r, start) && LeftAlone(start, r, t)
    ensures Now(start).tasks[t] <= Now(r).tasks[t]
    decreases r
  {
    if r != start {
      TaskStays(start, r.before, t);
      StepLeavesTask(Now(r.before), Log(r.before), r.event, r.now, r.log, t);
    }
  }

  /** A slot is claimed by one handler at a time, and stays claimed while that handler
      does not give it back. */
  lemma ClaimsStay(start: Run, r: Run, o: int)
    requires Valid(r) && Continues(r, start) && LeftAlone(start, r, ReturnSlot(o))
    requires o in ViewOf(Now(start), Log(start)).claimed
    ensures o in ViewOf(Now(r), Log(r)).claimed && Now(r).tasks[ReturnSlot(o)] == 1
  {
    TaskStays(start, r, ReturnSlot(o));
    Safety.RunsGrow(start, r);
    Safety.RunsKeepInv(r);
    OneClaimEach(Now(r), Log(r), o);
  }

  lemma OneClaimEach(w: World, h: History, o: int)
    requires ReturnsOnce(w, h)
    ensures w.tasks[ReturnSlot(o)] <= 1
  {
    assert w.tasks[ReturnSlot(o)] + h.facts[SlotReturned(o)] <= Bit(IsDead(w.db, o));
  }
}
