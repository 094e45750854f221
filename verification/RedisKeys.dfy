/**
 The Redis keys the protocol uses and what each command or Lua script does to
 them as one atomic step.  Times are nanoseconds; scores are Unix seconds.
 */
module RedisKeys {
  import opened Model

  const SECOND: int := 1_000_000_000
  const ORDER_CLOSE_DELAY: int := 30 * 60 * SECOND
  const PENDING_TIMEOUT: int := 30 * SECOND
  const SCAN_LIMIT: nat := 1000

  /** time.Time.Unix(): whole seconds, rounded down. */
  function Unix(t: int): int { t / SECOND }

  lemma UnixGrows(a: int, b: int)
    ensures a <= b ==> Unix(a) <= Unix(b)
  {
  }

  datatype Redis = Redis(
    stock: map<int, int>,
    members: set<Pair>,
    pending: map<Pair, int>,
    closeAt: map<int, int>,
    locks: map<int, int>)

  datatype GrabReply = GrabOk | SoldOut | Already

  /** A missing counter reads as 0. */
  function Stock(r: Redis, g: int): int
  {
    if g in r.stock then r.stock[g] else 0
  }

  function GrabReplyOf(r: Redis, p: Pair): GrabReply
  {
    if p in r.members then Already else if Stock(r, p.good) <= 0 then SoldOut else GrabOk
  }

  /** The pre-deduct script.  A refused grab leaves the stock at its value, though
      DECR followed by INCR brings a missing counter into being as 0. */
  function Grab(r: Redis, p: Pair, now: int): Redis
  {
    match GrabReplyOf(r, p)
    case Already => r
    case SoldOut => r.(stock := r.stock[p.good := Stock(r, p.good)])
    case GrabOk =>
      r.(stock := r.stock[p.good := Stock(r, p.good) - 1],
         members := r.members + {p},
         pending := r.pending[p := Unix(now)])
  }

  function OpenStock(r: Redis, g: int, max: int): Redis
  {
    r.(stock := r.stock[g := max], members := set p | p in r.members && p.good != g)
  }

  function ReleaseSlot(r: Redis, g: int): Redis
  {
    r.(stock := r.stock[g := Stock(r, g) + 1])
  }

  function ClearMark(r: Redis, p: Pair): Redis { r.(pending := r.pending - {p}) }

  function RenewMark(r: Redis, p: Pair, now: int): Redis { r.(pending := r.pending[p := Unix(now)]) }

  predicate MarkExpired(r: Redis, p: Pair, now: int)
  {
    p in r.pending && r.pending[p] < Unix(now - PENDING_TIMEOUT)
  }

  function ScheduleClose(r: Redis, o: int, now: int): Redis
  {
    r.(closeAt := r.closeAt[o := Unix(now + ORDER_CLOSE_DELAY)])
  }

  function UnscheduleClose(r: Redis, o: int): Redis { r.(closeAt := r.closeAt - {o}) }

  predicate CloseDue(r: Redis, o: int, now: int)
  {
    o in r.closeAt && r.closeAt[o] < Unix(now)
  }

  function TakeLock(r: Redis, g: int, token: int): Redis
  {
    if g in r.locks then r else r.(locks := r.locks[g := token])
  }

  function ExpireLock(r: Redis, g: int): Redis { r.(locks := r.locks - {g}) }

  function ReleaseLock(r: Redis, g: int, token: int): Redis
  {
    if g in r.locks && r.locks[g] == token then r.(locks := r.locks - {g}) else r
  }
}
