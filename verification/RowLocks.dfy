/**
 Interleaved SQL statements.  A transaction runs one statement at a time against
 the committed tables and its own uncommitted row versions, takes the row and
 index locks the statement needs, and holds them until it ends.  Every
 interleaving has the effect, and reports the results, of running the finished
 transactions one after the other.
 */
module RowLocks {
  import opened Model
  import opened Options
  import T = OrderTables

  datatype Call =
    | Create(order: int, p: Pair, now: int)
    | Cancel(order: int, user: int)
    | Close(order: int, now: int)
    | Pay(order: int, user: int)
    | Fail(good: int, now: int)
    | Succeed(good: int, now: int)

  /** What the caller is told: refused, or done with Counted, BecameSucceeded, BecameFull. */
  datatype Result = Refused | Done(counted: bool, succeeded: bool, full: bool)

  datatype Lock = OnOrder(order: int) | OnPair(p: Pair) | OnSignup(q: Pair) | OnGood(good: int)

  /** A running transaction: its next statement, its locks and its uncommitted row versions. */
  datatype Tx = Tx(call: Call, pc: nat, key: Pair, locks: set<Lock>,
                   order: Option<Order>, row: Option<GroupBuy>, result: Result)

  datatype Server = Server(db: Db, txs: map<int, Tx>)

  // ---- One call at a time ---------------------------------------------------------------

  function Alone(db: Db, c: Call): Db
  {
    match c
    case Create(o, p, now) => T.CreateOrder(db, o, p, now)
    case Cancel(o, u) => T.CancelOrder(db, o, u)
    case Close(o, now) => T.EndOrder(db, o, Closed, now)
    case Pay(o, u) => T.PayOrder(db, o, u)
    case Fail(g, now) => T.JudgeFailed(db, g, now)
    case Succeed(g, now) => T.JudgeSucceeded(db, g, now)
  }

  function DoneIf(b: bool): Result
  {
    if b then Done(false, false, false) else Refused
  }

  function AloneResult(db: Db, c: Call): Result
  {
    match c
    case Create(o, p, now) =>
      if T.Conflicts(db, o, p) then Refused
      else if p.good !in db.goods then Done(false, false, false)
      else
        var row := db.goods[p.good];
        var row' := T.Join(row);
        Done(row'.current == row.current + 1,
             row.status == Recruiting && row'.status != Recruiting,
             row.status != Full && row'.status == Full)
    case Cancel(o, u) => DoneIf(T.CanCancel(db, o, u))
    case Close(o, now) => DoneIf(T.CanLeavePending(db, o))
    case Pay(o, u) => DoneIf(T.CanPay(db, o, u))
    case Fail(g, now) => DoneIf(T.CanFail(db, g, now))
    case Succeed(g, now) => DoneIf(T.CanSucceedLate(db, g, now))
  }

  /** A call is told exactly what it did to the tables: nothing, or a change, and of a create
      whether it counted, completed the group, or filled it. */
  lemma ReportsAreTrue(db: Db, c: Call)
    ensures AloneResult(db, c) == Refused <==> Alone(db, c) == db
    ensures c.Create? && AloneResult(db, c).Done? && c.p.good in db.goods ==>
              var was, row := db.goods[c.p.good], Alone(db, c).goods[c.p.good];
              && (AloneResult(db, c).counted <==> row.current == was.current + 1)
              && (AloneResult(db, c).succeeded <==> was.status == Recruiting && row.status in {Succeeded, Full})
              && (AloneResult(db, c).full <==> was.status != Full && row.status == Full)
  {
    if c.Create? && !T.Conflicts(db, c.order, c.p) {
      assert c.order in Alone(db, c).orders;
    } else if c.Cancel? || c.Close? || c.Pay? {
      var orders := Alone(db, c).orders;
      assert c.order in db.orders ==> orders == db.orders || orders[c.order] != db.orders[c.order];
    }
  }

  function Serially(db: Db, cs: seq<Call>): Db
  {
    if cs == [] then db else Alone(Serially(db, cs[..|cs| - 1]), cs[|cs| - 1])
  }

  function SerialResults(db: Db, cs: seq<Call>): seq<Result>
  {
    if cs == [] then []
    else SerialResults(db, cs[..|cs| - 1]) +
         [AloneResult(Serially(db, cs[..|cs| - 1]), cs[|cs| - 1])]
  }

  // ---- Statement by statement --------------------------------------------------------------

  predicate IsEnd(c: Call) { c.Cancel? || c.Close? }

  predicate ManyStatements(c: Call) { c.Create? || IsEnd(c) }

  function CommitAt(c: Call): nat { if c.Create? then 5 else 4 }

  /** Locks a transaction must own for its next statement. */
  function Needs(tx: Tx): set<Lock>
  {
    if tx.call.Create? then
      match tx.pc
      case 0 => {OnOrder(tx.call.order), OnPair(tx.key)}
      case 1 => {OnSignup(tx.key)}
      case 2 => {OnGood(tx.key.good)}
      case _ => {}
    else if IsEnd(tx.call) then
      match tx.pc
      case 1 => {OnOrder(tx.call.order)}
      case 2 => {OnGood(tx.key.good)}
      case 3 => {OnSignup(tx.key)}
      case _ => {}
    else {}
  }

  datatype Outcome = Goes(tx: Tx) | Rejected

  /** The group-buy row as the transaction sees it: its own version if it wrote one. */
  function RowSeen(db: Db, tx: Tx): Option<GroupBuy>
  {
    if tx.row.Some? then tx.row
    else if tx.key.good in db.goods then Some(db.goods[tx.key.good])
    else None
  }

  function CreateStatement(db: Db, tx: Tx): Outcome
    requires tx.call.Create? && tx.result.Done?
  {
    var seen := RowSeen(db, tx);
    match tx.pc
    case 0 =>
      if tx.call.order in db.orders || HasOrder(db, tx.key) then Rejected
      else Goes(tx.(pc := 1, order := Some(Order(tx.key.user, tx.key.good, PendingPay, tx.call.now, 0))))
    case 1 => if tx.key in db.signups then Rejected else Goes(tx.(pc := 2))
    case 2 =>
      if seen.Some? && Countable(seen.value.status)
      then Goes(tx.(pc := 3, row := Some(seen.value.(current := seen.value.current + 1)),
                    result := tx.result.(counted := true)))
      else Goes(tx.(pc := 3))
    case 3 =>
      if seen.Some? && seen.value.status == Recruiting && seen.value.current >= seen.value.min
      then Goes(tx.(pc := 4, row := Some(seen.value.(status := Succeeded)),
                    result := tx.result.(succeeded := true)))
      else Goes(tx.(pc := 4))
    case 4 =>
      if seen.Some? && seen.value.status == Succeeded && seen.value.current >= seen.value.max
      then Goes(tx.(pc := 5, row := Some(seen.value.(status := Full)),
                    result := tx.result.(full := true)))
      else Goes(tx.(pc := 5))
    case _ => Goes(tx)
  }

  function EndStatement(db: Db, tx: Tx): Outcome
    requires IsEnd(tx.call)
  {
    var o := tx.call.order;
    match tx.pc
    case 0 =>
      if o in db.orders && (tx.call.Cancel? ==> db.orders[o].user == tx.call.user)
      then Goes(tx.(pc := 1, key := db.orders[o].Key()))
      else Rejected
    case 1 =>
      if T.CanLeavePending(db, o)
      then Goes(tx.(pc := 2, order := Some(EndedRow(db.orders[o], tx.call))))
      else Rejected
    case 2 =>
      if tx.key.good in db.goods && db.goods[tx.key.good].current > 0
      then var row := db.goods[tx.key.good];
           Goes(tx.(pc := 3, row := Some(row.(current := row.current - 1))))
      else Goes(tx.(pc := 3))
    case 3 => Goes(tx.(pc := 4))
    case _ => Goes(tx)
  }

  function EndedRow(row: Order, c: Call): Order
    requires IsEnd(c)
  {
    if c.Cancel? then row.(status := Cancelled) else row.(status := Closed, closedAt := c.now)
  }

  function Commit(db: Db, tx: Tx): Db
    requires ManyStatements(tx.call) && tx.order.Some?
  {
    Db(if tx.row.Some? then db.goods[tx.key.good := tx.row.value] else db.goods,
       db.orders[tx.call.order := tx.order.value],
       if tx.call.Create? then db.signups + {tx.key} else db.signups - {tx.key})
  }

  function Begin(c: Call): Tx
  {
    Tx(c, 0, if c.Create? then c.p else Pair(0, 0), {}, None, None, Done(false, false, false))
  }

  // ---- Steps of the server --------------------------------------------------------------------

  datatype Step =
    | Start(t: int, call: Call)
    | Run(t: int)                 // the next statement of transaction t, or its commit
    | Abort(t: int)               // connection lost: rolled back, nobody is told
    | Single(call: Call)          // an autocommitted statement

  predicate FreeFor(s: Server, t: int, ls: set<Lock>)
  {
    forall u :: u in s.txs && u != t ==> s.txs[u].locks !! ls
  }

  function SingleNeeds(c: Call): set<Lock>
  {
    match c
    case Pay(o, _) => {OnOrder(o)}
    case Fail(g, _) => {OnGood(g)}
    case Succeed(g, _) => {OnGood(g)}
    case _ => {}
  }

  predicate Enabled(s: Server, e: Step)
  {
    match e
    case Start(t, c) => t !in s.txs && ManyStatements(c)
    case Run(t) => t in s.txs && FreeFor(s, t, Needs(s.txs[t]))
    case Abort(t) => t in s.txs
    case Single(c) => !ManyStatements(c) && forall u :: u in s.txs ==> s.txs[u].locks !! SingleNeeds(c)
  }

  predicate WellFormed(s: Server)
  {
    forall t :: t in s.txs ==>
      var tx := s.txs[t];
      ManyStatements(tx.call) && tx.result.Done? && (tx.pc >= CommitAt(tx.call) ==> tx.order.Some?)
  }

  function Statement(db: Db, tx: Tx): Outcome
    requires ManyStatements(tx.call) && tx.result.Done?
  {
    var out := if tx.call.Create? then CreateStatement(db, tx) else EndStatement(db, tx);
    if out.Goes? then Goes(out.tx.(locks := tx.locks + Needs(tx))) else Rejected
  }

  function Next(s: Server, e: Step): Server
    requires WellFormed(s) && Enabled(s, e)
  {
    match e
    case Start(t, c) => s.(txs := s.txs[t := Begin(c)])
    case Abort(t) => s.(txs := s.txs - {t})
    case Single(c) => s.(db := Alone(s.db, c))
    case Run(t) =>
      var tx := s.txs[t];
      if tx.pc >= CommitAt(tx.call) then Server(Commit(s.db, tx), s.txs - {t})
      else match Statement(s.db, tx)
        case Goes(tx') => s.(txs := s.txs[t := tx'])
        case Rejected => s.(txs := s.txs - {t})
  }

  /** The call a step finishes, with what its caller is told. */
  function Finished(s: Server, e: Step): Option<(Call, Result)>
    requires WellFormed(s) && Enabled(s, e)
  {
    match e
    case Start(_, _) => None
    case Abort(_) => None
    case Single(c) => Some((c, AloneResult(s.db, c)))
    case Run(t) =>
      var tx := s.txs[t];
      if tx.pc >= CommitAt(tx.call) then Some((tx.call, tx.result))
      else if Statement(s.db, tx).Rejected? then Some((tx.call, Refused))
      else None
  }

  // ---- What a running transaction knows ----------------------------------------------------------

  /** The row a create is about to write, after `n` of its three row statements. */
  function JoinPart(row: GroupBuy, n: int): GroupBuy
  {
    var a := if n >= 1 && Countable(row.status) then row.(current := row.current + 1) else row;
    var b := if n >= 2 && a.status == Recruiting && a.current >= a.min then a.(status := Succeeded) else a;
    if n >= 3 && b.status == Succeeded && b.current >= b.max then b.(status := Full) else b
  }

  ghost predicate CreateOk(db: Db, tx: Tx)
    requires tx.call.Create? && tx.result.Done?
  {
    && tx.pc <= 5 && tx.key == tx.call.p
    && (tx.pc >= 1 ==>
          && OnOrder(tx.call.order) in tx.locks && OnPair(tx.key) in tx.locks
          && tx.call.order !in db.orders && !HasOrder(db, tx.key)
          && tx.order == Some(Order(tx.key.user, tx.key.good, PendingPay, tx.call.now, 0)))
    && (tx.pc >= 2 ==> OnSignup(tx.key) in tx.locks && tx.key !in db.signups)
    && (tx.pc < 3 ==> tx.row == None && tx.result == Done(false, false, false))
    && (tx.pc >= 3 ==>
          && OnGood(tx.key.good) in tx.locks
          && (tx.key.good !in db.goods ==> tx.row == None && tx.result == Done(false, false, false))
          && (tx.key.good in db.goods ==>
                var row := db.goods[tx.key.good];
                var n := tx.pc - 2;
                && RowSeen(db, tx) == Some(JoinPart(row, n))
                && tx.result.counted == Countable(row.status)
                && tx.result.succeeded ==
                   (row.status == Recruiting && JoinPart(row, if n > 2 then 2 else n).status == Succeeded)
                && tx.result.full == (row.status != Full && JoinPart(row, n).status == Full)))
  }

  ghost predicate EndOk(db: Db, tx: Tx)
    requires IsEnd(tx.call) && tx.result.Done?
  {
    var o := tx.call.order;
    && tx.pc <= 4 && tx.result == Done(false, false, false)
    && (tx.pc >= 1 ==>
          && o in db.orders && db.orders[o].Key() == tx.key
          && (tx.call.Cancel? ==> db.orders[o].user == tx.call.user))
    && (tx.pc >= 2 ==>
          && OnOrder(o) in tx.locks && db.orders[o].status == PendingPay
          && tx.order == Some(EndedRow(db.orders[o], tx.call)))
    && (tx.pc < 3 ==> tx.row == None)
    && (tx.pc >= 3 ==>
          && OnGood(tx.key.good) in tx.locks
          && (tx.key.good !in db.goods ==> tx.row == None)
          && (tx.key.good in db.goods ==> RowSeen(db, tx) == Some(T.Leave(db.goods[tx.key.good]))))
    && (tx.pc >= 4 ==> OnSignup(tx.key) in tx.locks)
  }

  ghost predicate TxOk(db: Db, tx: Tx)
  {
    && ManyStatements(tx.call) && tx.result.Done?
    && (if tx.call.Create? then CreateOk(db, tx) else EndOk(db, tx))
  }

  ghost predicate ServerInv(s: Server)
  {
    && (forall t :: t in s.txs ==> TxOk(s.db, s.txs[t]))
    && (forall t, u :: t in s.txs && u in s.txs && t != u ==> s.txs[t].locks !! s.txs[u].locks)
  }

  lemma InvIsWellFormed(s: Server)
    requires ServerInv(s)
    ensures WellFormed(s)
  {
    forall t | t in s.txs
      ensures ManyStatements(s.txs[t].call) && s.txs[t].result.Done? &&
              (s.txs[t].pc >= CommitAt(s.txs[t].call) ==> s.txs[t].order.Some?)
    {
      assert TxOk(s.db, s.txs[t]);
    }
  }

  // ---- A statement advances its own transaction ------------------------------------------------------

  lemma CreateAdvances(db: Db, tx: Tx)
    requires tx.call.Create? && TxOk(db, tx) && tx.pc < 5
    ensures Statement(db, tx).Goes? ==> TxOk(db, Statement(db, tx).tx)
    ensures Statement(db, tx).Rejected? ==> AloneResult(db, tx.call) == Refused && Alone(db, tx.call) == db
  {
  }

  lemma EndAdvances(db: Db, tx: Tx)
    requires IsEnd(tx.call) && TxOk(db, tx) && tx.pc < 4
    ensures Statement(db, tx).Goes? ==> TxOk(db, Statement(db, tx).tx)
    ensures Statement(db, tx).Rejected? ==> AloneResult(db, tx.call) == Refused && Alone(db, tx.call) == db
  {
  }

  /** At its commit a transaction does and reports what it would have done alone. */
  lemma CommitIsAlone(db: Db, tx: Tx)
    requires TxOk(db, tx) && tx.pc >= CommitAt(tx.call)
    ensures Commit(db, tx) == Alone(db, tx.call)
    ensures tx.result == AloneResult(db, tx.call)
  {
    if tx.key.good in db.goods {
      var row := db.goods[tx.key.good];
      if tx.call.Create? {
        assert JoinPart(row, 3) == T.Join(row);
      }
      assert tx.row == None ==> db.goods[tx.key.good := row] == db.goods;
    }
  }

  // ---- ... and disturbs no other ---------------------------------------------------------------------

  /** The two states agree on everything a lock protects. */
  ghost predicate Agree(a: Db, b: Db, l: Lock)
  {
    match l
    case OnOrder(o) =>
      (o in a.orders <==> o in b.orders) && (o in a.orders && o in b.orders ==> a.orders[o] == b.orders[o])
    case OnPair(p) => HasOrder(a, p) <==> HasOrder(b, p)
    case OnSignup(q) => q in a.signups <==> q in b.signups
    case OnGood(g) => (g in a.goods <==> g in b.goods) && (g in a.goods && g in b.goods ==> a.goods[g] == b.goods[g])
  }

  lemma TxStaysOk(db: Db, db': Db, tx: Tx)
    requires TxOk(db, tx) && (forall l :: l in tx.locks ==> Agree(db, db', l)) && T.OrdersGrow(db, db')
    ensures TxOk(db', tx)
  {
    if tx.call.Create? {
      assert tx.pc >= 1 ==> Agree(db, db', OnOrder(tx.call.order)) && Agree(db, db', OnPair(tx.key));
      assert tx.pc >= 2 ==> Agree(db, db', OnSignup(tx.key));
      assert tx.pc >= 3 ==> Agree(db, db', OnGood(tx.key.good));
    } else {
      assert tx.pc >= 2 ==> Agree(db, db', OnOrder(tx.call.order));
      assert tx.pc >= 3 ==> Agree(db, db', OnGood(tx.key.good));
      assert tx.pc >= 1 ==> T.OrderFollows(db.orders[tx.call.order], db'.orders[tx.call.order]);
    }
  }

  lemma CreateTouchesItsLocks(db: Db, o: int, p: Pair, now: int, l: Lock)
    requires l != OnOrder(o) && l != OnPair(p) && l != OnSignup(p) && l != OnGood(p.good)
    ensures Agree(db, T.CreateOrder(db, o, p, now), l)
  {
    if l.OnPair? && !T.Conflicts(db, o, p) {
      T.CreateOrdersOnlyItsPair(db, o, p, now, l.p);
    }
  }

  lemma EndTouchesItsLocks(db: Db, o: int, ended: OrderStatus, now: int, l: Lock)
    requires o in db.orders
    requires l != OnOrder(o) && l != OnSignup(db.orders[o].Key()) && l != OnGood(db.orders[o].good)
    ensures Agree(db, T.EndOrder(db, o, ended, now), l)
  {
    if l.OnPair? {
      T.SameKeysSameOrders(db, T.EndOrder(db, o, ended, now), l.p);
    }
  }

  lemma SingleTouchesItsLocks(db: Db, c: Call, l: Lock)
    requires !ManyStatements(c) && l !in SingleNeeds(c)
    ensures Agree(db, Alone(db, c), l)
  {
    if l.OnPair? {
      T.SameKeysSameOrders(db, Alone(db, c), l.p);
    }
  }

  lemma CommitTouchesItsLocks(db: Db, tx: Tx, l: Lock)
    requires TxOk(db, tx) && tx.pc >= CommitAt(tx.call) && l !in tx.locks
    ensures Agree(db, Alone(db, tx.call), l)
  {
    match tx.call
    case Create(o, p, now) => CreateTouchesItsLocks(db, o, p, now, l);
    case Cancel(o, u) => EndTouchesItsLocks(db, o, Cancelled, 0, l);
    case Close(o, now) => EndTouchesItsLocks(db, o, Closed, now, l);
  }

  lemma AloneGrows(db: Db, c: Call)
    ensures T.OrdersGrow(db, Alone(db, c))
  {
    match c
    case Create(o, p, now) => T.CreateGrows(db, o, p, now);
    case Cancel(o, u) => T.CancelGrows(db, o, u);
    case Close(o, now) => T.EndGrows(db, o, Closed, now);
    case Pay(o, u) => T.PayGrows(db, o, u);
    case _ =>
  }

  // ---- Every step ---------------------------------------------------------------------------------------

  /** A step either finishes a call, with exactly that call's serial effect and
      result, or leaves the committed tables as they are. */
  ghost predicate Simulates(s: Server, e: Step)
    requires WellFormed(s) && Enabled(s, e)
  {
    var f := Finished(s, e);
    if f.None? then Next(s, e).db == s.db
    else Next(s, e).db == Alone(s.db, f.value.0) && f.value.1 == AloneResult(s.db, f.value.0)
  }

  lemma StepSimulates(s: Server, e: Step)
    requires ServerInv(s) && WellFormed(s) && Enabled(s, e)
    ensures Simulates(s, e)
  {
    if e.Run? {
      var tx := s.txs[e.t];
      assert TxOk(s.db, tx);
      if tx.pc >= CommitAt(tx.call) {
        CommitIsAlone(s.db, tx);
      } else if tx.call.Create? {
        CreateAdvances(s.db, tx);
      } else {
        EndAdvances(s.db, tx);
      }
    }
  }

  lemma StepKeepsInv(s: Server, e: Step)
    requires ServerInv(s) && WellFormed(s) && Enabled(s, e)
    ensures ServerInv(Next(s, e))
  {
    match e
    case Start(t, c) =>
    case Abort(t) =>
    case Single(c) =>
      AloneGrows(s.db, c);
      forall u | u in s.txs ensures TxOk(Alone(s.db, c), s.txs[u]) {
        forall l | l in s.txs[u].locks ensures Agree(s.db, Alone(s.db, c), l) {
          SingleTouchesItsLocks(s.db, c, l);
        }
        TxStaysOk(s.db, Alone(s.db, c), s.txs[u]);
      }
    case Run(t) => RunKeepsInv(s, t);
  }

  lemma RunKeepsInv(s: Server, t: int)
    requires ServerInv(s) && WellFormed(s) && Enabled(s, Run(t))
    ensures ServerInv(Next(s, Run(t)))
  {
    var tx, s' := s.txs[t], Next(s, Run(t));
    assert TxOk(s.db, tx);
    if tx.pc >= CommitAt(tx.call) {
      CommitIsAlone(s.db, tx);
      AloneGrows(s.db, tx.call);
      forall u | u in s'.txs ensures TxOk(s'.db, s'.txs[u]) {
        forall l | l in s.txs[u].locks ensures Agree(s.db, s'.db, l) {
          CommitTouchesItsLocks(s.db, tx, l);
        }
        TxStaysOk(s.db, s'.db, s.txs[u]);
      }
    } else if tx.call.Create? {
      CreateAdvances(s.db, tx);
    } else {
      EndAdvances(s.db, tx);
    }
  }

  // ---- Whole schedules ------------------------------------------------------------------------------------

  /** An interleaving of statements, with the server after each of them. */
  datatype Schedule = Idle(db: Db) | Then(before: Schedule, step: Step, after: Server)

  function Last(r: Schedule): Server
  {
    match r
    case Idle(db) => Server(db, map[])
    case Then(_, _, s) => s
  }

  function First(r: Schedule): Db
  {
    match r
    case Idle(db) => db
    case Then(before, _, _) => First(before)
  }

  predicate Valid(r: Schedule)
  {
    match r
    case Idle(_) => true
    case Then(before, e, s) =>
      Valid(before) && WellFormed(Last(before)) && Enabled(Last(before), e) && s == Next(Last(before), e)
  }

  /** The finished calls in the order they finished, and what their callers were told. */
  function Calls(r: Schedule): seq<Call>
    requires Valid(r)
  {
    match r
    case Idle(_) => []
    case Then(before, e, _) =>
      Calls(before) + (match Finished(Last(before), e) case None => [] case Some(f) => [f.0])
  }

  function Results(r: Schedule): seq<Result>
    requires Valid(r)
  {
    match r
    case Idle(_) => []
    case Then(before, e, _) =>
      Results(before) + (match Finished(Last(before), e) case None => [] case Some(f) => [f.1])
  }

  lemma {:induction false} ScheduleInv(r: Schedule)
    requires Valid(r)
    ensures ServerInv(Last(r))
  {
    match r
    case Idle(_) =>
    case Then(before, e, _) =>
      ScheduleInv(before);
      StepKeepsInv(Last(before), e);
  }

  /** Whatever the interleaving, no transaction is ever ill-formed: every step that a server can
      take continues the schedule. */
  lemma SchedulesGoOn(r: Schedule, e: Step)
    requires Valid(r)
    ensures WellFormed(Last(r))
    ensures Enabled(Last(r), e) ==> Valid(Then(r, e, Next(Last(r), e)))
  {
    ScheduleInv(r);
    InvIsWellFormed(Last(r));
  }

  lemma SerialStep(db: Db, cs: seq<Call>, c: Call)
    ensures Serially(db, cs + [c]) == Alone(Serially(db, cs), c)
    ensures SerialResults(db, cs + [c]) == SerialResults(db, cs) + [AloneResult(Serially(db, cs), c)]
  {
    assert (cs + [c])[..|cs + [c]| - 1] == cs;
  }

  /** Any interleaving of create, cancel, close, pay and judge statements leaves the
      committed tables as running the finished calls one after the other in the
      order they finished, and tells every caller the same. */
  lemma {:induction false} InterleavingsSerialise(r: Schedule)
    requires Valid(r)
    ensures Last(r).db == Serially(First(r), Calls(r))
    ensures Results(r) == SerialResults(First(r), Calls(r))
  {
    match r
    case Idle(_) =>
    case Then(before, e, _) =>
      InterleavingsSerialise(before);
      ScheduleInv(before);
      StepSimulates(Last(before), e);
      var f := Finished(Last(before), e);
      if f.Some? {
        SerialStep(First(r), Calls(before), f.value.0);
        assert Calls(r) == Calls(before) + [f.value.0] && Results(r) == Results(before) + [f.value.1];
      } else {
        assert Last(r).db == Last(before).db;
        assert Calls(r) == Calls(before) && Results(r) == Results(before);
      }
  }

  /** The table invariant therefore holds at every commit of every interleaving. */
  lemma {:induction false} SerialKeepsInv(db: Db, cs: seq<Call>)
    requires T.DbInv(db)
    ensures T.DbInv(Serially(db, cs))
  {
    if cs != [] {
      var before, c := cs[..|cs| - 1], cs[|cs| - 1];
      SerialKeepsInv(db, before);
      AloneKeepsInv(Serially(db, before), c);
    }
  }

  lemma AloneKeepsInv(db: Db, c: Call)
    requires T.DbInv(db)
    ensures T.DbInv(Alone(db, c))
  {
    match c
    case Create(o, p, now) => T.CreateKeepsInv(db, o, p, now);
    case Cancel(o, u) => T.CancelKeepsInv(db, o, u);
    case Close(o, now) => T.EndKeepsInv(db, o, Closed, now);
    case Pay(o, u) => T.PayKeepsInv(db, o, u);
    case Fail(g, now) => T.JudgeKeepsInv(db, g, now);
    case Succeed(g, now) => T.JudgeKeepsInv(db, g, now);
  }

  lemma InterleavingsKeepTables(r: Schedule)
    requires Valid(r) && T.DbInv(First(r))
    ensures T.DbInv(Last(r).db)
  {
    InterleavingsSerialise(r);
    SerialKeepsInv(First(r), Calls(r));
  }
}
