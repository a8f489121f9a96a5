/** One turn of each of the library's blocking calls: what it does up to its sleep, where control may
    pass to another thread, or up to its end. The transition systems and the objects on the heap both
    use these definitions, for primitives of any type. */
module Turns {
  import opened Scheduler

  datatype Lock = Lock(held: bool, helder: int)

  const FREE := Lock(false, -1)

  /** What one turn leaves: the object's value, the scheduler, and whether the call is over. With nothing
      ready a sleep returns at once, and the turn leaves everything as it was. */
  datatype Turn<V, P> = Turn(value: V, sched: Option<Sched<P>>, done: bool)

  function Acquire<P>(lock: Lock, s: Sched<P>, p: P): Turn<Lock, P>
    requires p in s.waits
  {
    if lock.held then Turn(lock, Sleep(s, p), false) else Turn(Lock(true, s.run), Some(s), true)
  }

  function Down<P>(count: nat, s: Sched<P>, p: P): Turn<nat, P>
    requires p in s.waits
  {
    if count == 0 then Turn(count, Sleep(s, p), false) else Turn(count - 1, Some(s), true)
  }

  /** A wait on `cv` with a lock just released: the sleep or, should that return at once, the first turn
      of the acquire. */
  function WaitOn<P>(s: Sched<P>, cv: P, p: P): Turn<Lock, P>
    requires p in s.waits && cv in s.waits
  {
    if s.readyNum == 0 then Acquire(FREE, s, p) else Turn(FREE, Sleep(s, cv), false)
  }

  /** A SEND_WAIT: the provided token is released, and the wanted one, whose value is `want`, tried for. */
  function SendWait<P>(want: Lock, s: Sched<P>, provide: P, p: P): Turn<Lock, P>
    requires p in s.waits && provide in s.waits
  {
    Acquire(if p == provide then FREE else want, Wakeup(s, provide), p)
  }

  /** A full buffer stops a producer and an empty one a consumer. */
  predicate Stopped(buffer: int, limit: int, produce: bool) {
    buffer == if produce then limit else 0
  }

  function Moved(buffer: int, produce: bool): int {
    if produce then buffer + 1 else buffer - 1
  }

  /** A producer's turn, or else a consumer's: one item moves and one thread of the `other` list is woken,
      or the thread sleeps on its `own`. */
  function Move<P>(buffer: int, limit: int, produce: bool, s: Sched<P>, own: P, other: P): Turn<int, P>
    requires own in s.waits && other in s.waits
  {
    if Stopped(buffer, limit, produce) then Turn(buffer, Sleep(s, own), false)
    else Turn(Moved(buffer, produce), Some(Wakeup(s, other)), true)
  }

  /** How the turn of a join that is not over ends: with a switch, straight to a ready target or else to
      whoever is next, with a return to the boot thread, or with the program. */
  datatype JoinEnd<P> = Switched(sched: Sched<P>) | ToBoot(sched: Sched<P>) | JoinsItself | Failed

  function JoinTurn<P>(s: Sched<P>, x: Tid): JoinEnd<P>
    requires x in s.status
  {
    match s.status[x]
    case Running => JoinsItself
    case Ready => JoinSwitch(Resume(s, x), x == BOOT)
    case Waiting => JoinSwitch(Yield(s), s.readyNum == 0)
  }

  function JoinSwitch<P>(o: Option<Sched<P>>, toBoot: bool): JoinEnd<P> {
    match o
    case None => Failed
    case Some(sched) => if toBoot then ToBoot(sched) else Switched(sched)
  }
}
