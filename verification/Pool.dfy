/** The thread pool on the heap. Every operation changes links, threads and counters in place the
    way the library does, and is proved to act on `Model()` as the scheduler's operation does. */
module ThreadPool {
  import opened Sequences
  import opened Scheduler
  import opened Queues

  ghost function Ids(items: seq<Link>): seq<Tid> {
    seq(|items|, k requires 0 <= k < |items| => items[k].t.id)
  }

  method ClearTable(addrs: array<Thread?>)
    modifies addrs
    ensures forall k | 0 <= k < addrs.Length :: addrs[k] == null
  {
    for i := 0 to addrs.Length
      invariant forall k | 0 <= k < i :: addrs[k] == null
    {
      addrs[i] := null;
    }
  }

  class Pool {
    var tRunning: Link
    var readyNum: int
    const ready: LinkQueue
    var waitingNum: int
    var newId: nat
    var num: int
    const addrs: array<Thread?>
    var coCurrentId: Tid

    ghost var prims: set<Prim>
    ghost var woken: nat
    ghost var repr: set<object>

    /** The links of `q` belong to threads of the table. */
    ghost predicate Queue(q: LinkQueue)
      reads *
    {
      && q in repr && q.Valid()
      && forall l | l in q.items :: l in repr && l.t in repr && l.t.id < addrs.Length && addrs[l.t.id] == l.t
    }

    ghost predicate Shape()
      reads *
    {
      && {this, ready, addrs, tRunning, tRunning.t} <= repr
      && addrs.Length == MAX_CAPACITY
      && (forall i: nat | i < addrs.Length && addrs[i] != null :: addrs[i].id == i && addrs[i] in repr)
      && Queue(ready) && ready.Clean()
      && (forall p | p in prims :: Queue(p.waiting) && p.waiting != ready)
      && (forall p, q | p in prims && q in prims && p != q :: p.waiting != q.waiting)
    }

    ghost function StatusMap(): map<Tid, Status>
      reads *
    {
      map i: Tid | i < addrs.Length && addrs[i] != null :: addrs[i].status
    }

    ghost function WaitMap(): map<Prim, seq<Tid>>
      reads *
    {
      map p | p in prims :: Ids(p.waiting.items)
    }

    ghost function Model(): Sched<Prim>
      reads *
    {
      Sched(tRunning.t.id, coCurrentId, Ids(ready.items), WaitMap(), StatusMap(),
            newId, num, readyNum, waitingNum, woken)
    }

    /** The running link is on no queue, its thread is in the table, and it has a successor only while some
        thread is ready: so appending it to the empty ready queue leaves that queue's end clean. */
    ghost predicate Current()
      reads *
    {
      && tRunning.home == null && tRunning.t.id < addrs.Length && addrs[tRunning.t.id] == tRunning.t
      && (ready.items == [] ==> tRunning.next == null)
    }

    ghost predicate Valid()
      reads *
    {
      Shape() && Inv(Model()) && Current()
    }

    /** Queues whose links did not move keep their contents. */
    twostate lemma Unmoved(q: LinkQueue)
      requires old(Queue(q)) && unchanged(q) && repr == old(repr)
      requires forall l | l in q.items :: l.next == old(l.next) && l.home == old(l.home)
      requires forall l | l in q.items :: addrs[l.t.id] == old(addrs[l.t.id])
      ensures Queue(q) && (old(q.Clean()) ==> q.Clean())
    {
    }

    constructor ()
      ensures Shape() && Current() && fresh(repr) && prims == {} && Model() == Initial()
    {
      var t := new Thread(BOOT, Running);
      var linker := new Link(t);
      coCurrentId := BOOT;
      newId := 1;
      num := 1;
      readyNum := 0;
      waitingNum := 0;
      tRunning := linker;
      ready := new LinkQueue();
      addrs := new Thread?[MAX_CAPACITY];
      prims := {};
      woken := 0;
      new;
      ClearTable(addrs);
      addrs[BOOT] := t;
      repr := {this, ready, addrs, t, linker};
      assert StatusMap() == map[BOOT := Running];
      assert WaitMap() == map[];
    }

    static method ThreadInitial() returns (pool: Pool)
      ensures pool.Valid() && fresh(pool.repr) && pool.prims == {} && pool.Model() == Initial()
    {
      pool := new Pool();
      InitialInv<Prim>();
    }

    // ---------- Status changes ----------

    twostate lemma SameWaits()
      requires prims == old(prims) && forall p | p in prims :: p.waiting.items == old(p.waiting.items)
      ensures WaitMap() == old(WaitMap())
    {
    }

    twostate lemma OneQueueChanged(p: Prim)
      requires prims == old(prims) && p in prims
      requires forall q | q in prims && q != p :: q.waiting.items == old(q.waiting.items)
      ensures WaitMap() == old(WaitMap())[p := Ids(p.waiting.items)]
    {
    }

    twostate lemma SameStatuses()
      requires forall i: nat | i < addrs.Length :: addrs[i] == old(addrs[i])
      requires forall i: nat | i < addrs.Length && addrs[i] != null :: addrs[i].status == old(addrs[i].status)
      ensures StatusMap() == old(StatusMap())
    {
    }

    /** Assigning fields of the pool leaves queues and table as they were. */
    twostate lemma PoolFieldsOnly()
      requires old(Shape()) && prims == old(prims) && repr == old(repr)
      requires forall o | o in repr && o != this :: unchanged(o)
      ensures Queue(ready) && ready.Clean() && forall p | p in prims :: Queue(p.waiting)
      ensures WaitMap() == old(WaitMap()) && StatusMap() == old(StatusMap())
      ensures ready.items == old(ready.items)
    {
      SameWaits();
      SameStatuses();
      Unmoved(ready);
      forall p | p in prims ensures Queue(p.waiting) {
        Unmoved(p.waiting);
      }
    }

    method SetStatus(t: Thread, status: Status)
      requires Shape() && t.id < addrs.Length && addrs[t.id] == t
      modifies t
      ensures Shape()
      ensures var m := old(Model()); Model() == m.(status := m.status[t.id := status])
    {
      t.status := status;
      forall p | p in prims ensures Queue(p.waiting) {
        Unmoved(p.waiting);
      }
      Unmoved(ready);
      SameWaits();
      assert StatusMap() == old(StatusMap())[t.id := status];
    }

    method SetCurrentId(t: Tid)
      requires Shape()
      modifies this`coCurrentId
      ensures Shape() && tRunning == old(tRunning) && Model() == old(Model()).(cur := t)
    {
      coCurrentId := t;
      PoolFieldsOnly();
    }

    ghost method NoteWoken()
      requires Shape()
      modifies this`woken
      ensures Shape() && tRunning == old(tRunning) && Model() == old(Model()).(woken := old(woken) + 1)
    {
      woken := woken + 1;
      PoolFieldsOnly();
    }

    method CountReady(d: int)
      requires Shape()
      modifies this`readyNum
      ensures Shape() && tRunning == old(tRunning) && Model() == old(Model()).(readyNum := old(readyNum) + d)
    {
      readyNum := readyNum + d;
      PoolFieldsOnly();
    }

    method CountWaiting(d: int)
      requires Shape()
      modifies this`waitingNum
      ensures Shape() && tRunning == old(tRunning) && Model() == old(Model()).(waitingNum := old(waitingNum) + d)
    {
      waitingNum := waitingNum + d;
      PoolFieldsOnly();
    }

    method SetRunning(linker: Link)
      requires Shape() && linker in repr && linker.t in repr
      modifies this`tRunning
      ensures Shape() && tRunning == linker && Model() == old(Model()).(run := linker.t.id)
    {
      tRunning := linker;
      PoolFieldsOnly();
    }

    method AppendReady(linker: Link)
      requires Shape() && linker.home == null && linker in repr && linker.t in repr
      requires ready.items == [] ==> linker.next == null
      requires linker.t.id < addrs.Length && addrs[linker.t.id] == linker.t
      modifies repr - {addrs}
      ensures linker != tRunning ==> tRunning.home == old(tRunning.home)
      ensures Shape() && repr == old(repr) && prims == old(prims) && tRunning == old(tRunning) && ready.items != []
      ensures var m := old(Model()); Model() == m.(ready := m.ready + [linker.t.id])
    {
      ready.Append(linker);
      forall p | p in prims ensures Queue(p.waiting) {
        Unmoved(p.waiting);
      }
      SameWaits();
      SameStatuses();
      assert Ids(ready.items) == old(Ids(ready.items)) + [linker.t.id];
    }

    method AppendTo(p: Prim, linker: Link)
      requires Shape() && linker.home == null && linker in repr && linker.t in repr && p in prims
      requires linker.t.id < addrs.Length && addrs[linker.t.id] == linker.t
      modifies repr - {addrs}
      ensures forall l: Link | l in old(repr) && l != linker && old(l.home) == null ::
                l.home == null && l.next == old(l.next)
      ensures Shape() && repr == old(repr) && prims == old(prims) && tRunning == old(tRunning)
      ensures var m := old(Model()); Model() == m.(waits := m.waits[p := m.waits[p] + [linker.t.id]])
    {
      hide NoDup, StatusMap;
      p.waiting.Append(linker);
      assert Ids(p.waiting.items) == old(Ids(p.waiting.items)) + [linker.t.id];
      forall q | q in prims && q != p ensures Queue(q.waiting) {
        Unmoved(q.waiting);
      }
      Unmoved(ready);
      SameStatuses();
      OneQueueChanged(p);
    }

    method AppendWaiting(linker: Link, p: Prim)
      requires Shape() && linker.home == null && linker in repr && linker.t in repr && p in prims
      requires linker.t.id < addrs.Length && addrs[linker.t.id] == linker.t
      modifies repr - {addrs}
      ensures forall l: Link | l in old(repr) && l != linker && old(l.home) == null ::
                l.home == null && l.next == old(l.next)
      ensures Shape() && repr == old(repr) && prims == old(prims) && tRunning == old(tRunning)
      ensures var m := old(Model());
              Model() == m.(waits := m.waits[p := m.waits[p] + [linker.t.id]], waitingNum := m.waitingNum + 1)
    {
      hide Queue, StatusMap, WaitMap;
      AppendTo(p, linker);
      CountWaiting(1);
    }

    method ExtractReady(t: Thread) returns (linker: Link?)
      requires Shape() && t.id < addrs.Length && addrs[t.id] == t && ready.items != [] && NoDup(Model().ready)
      modifies repr - {addrs}
      ensures Shape() && repr == old(repr) && prims == old(prims) && tRunning == old(tRunning)
      ensures linker != null <==> t.id in old(Model()).ready
      ensures linker == null ==> Model() == old(Model())
      ensures linker != null ==> linker.t == t && linker in repr && linker.home == null && linker.next == null
      ensures linker != null ==> var m := old(Model()); Model() == m.(ready := Without(m.ready, t.id))
    {
      hide Without, NoDup;
      Places(t);
      ghost var path := ready.Search(t);
      linker := ready.ExtractThread(t, path);
      if linker != null {
        IdsWithout(old(ready.items), linker);
        ReadyCut(linker);
      } else {
        Unmoved(ready);
      }
      forall q | q in prims ensures Queue(q.waiting) {
        Unmoved(q.waiting);
      }
      SameWaits();
      SameStatuses();
    }

    twostate lemma ReadyCut(linker: Link)
      requires old(Queue(ready)) && ready.Valid() && repr == old(repr)
      requires linker in old(ready.items) && ready.items == Without<Link>(old(ready.items), linker)
      requires forall l | l in old(ready.items) :: addrs[l.t.id] == old(addrs[l.t.id])
      ensures Queue(ready)
    {
      hide Without;
      WithoutProperties(old(ready.items), linker);
    }

    /** A thread of the table is ready exactly if it has a link on the ready queue. */
    lemma Places(t: Thread)
      requires Shape() && t.id < addrs.Length && addrs[t.id] == t
      ensures t.id in Model().ready <==> exists l | l in ready.items :: l.t == t
    {
      if t.id in Model().ready {
        var k :| 0 <= k < |ready.items| && Ids(ready.items)[k] == t.id;
        assert ready.items[k] in ready.items;
      }
      forall l | l in ready.items && l.t == t ensures t.id in Model().ready {
        var k :| 0 <= k < |ready.items| && ready.items[k] == l;
        assert Ids(ready.items)[k] == t.id;
      }
    }

    method RunningToReady(linker: Link)
      requires Shape() && linker.home == null && linker in repr && linker.t in repr
      requires ready.items == [] ==> linker.next == null
      requires linker.t.id < addrs.Length && addrs[linker.t.id] == linker.t
      modifies repr - {addrs}
      ensures linker != tRunning ==> tRunning.home == old(tRunning.home)
      ensures Shape() && repr == old(repr) && prims == old(prims) && tRunning == old(tRunning)
      ensures Model() == Scheduler.RunningToReady(old(Model()), linker.t.id)
    {
      hide Queue, StatusMap, WaitMap;
      SetStatus(linker.t, Ready);
      AppendReady(linker);
      CountReady(1);
    }

    method RunningToLockWaiting(linker: Link, p: Prim)
      requires Shape() && linker.home == null && linker == tRunning && p in prims
      requires linker.t.id < addrs.Length && addrs[linker.t.id] == linker.t
      modifies repr - {addrs}
      ensures forall l: Link | l in old(repr) && l != linker && old(l.home) == null ::
                l.home == null && l.next == old(l.next)
      ensures Shape() && repr == old(repr) && prims == old(prims) && tRunning == old(tRunning)
      ensures Model() == Scheduler.RunningToLockWaiting(old(Model()), p)
    {
      hide Queue, StatusMap, WaitMap;
      SetStatus(linker.t, Waiting);
      AppendWaiting(linker, p);
    }

    method WaitingToRunning(linker: Link)
      requires Shape() && linker in repr && linker.t in repr
      requires linker.t.id < addrs.Length && addrs[linker.t.id] == linker.t && waitingNum > 0
      modifies repr - {addrs}
      ensures Shape() && repr == old(repr) && prims == old(prims)
      ensures tRunning == linker && linker.home == old(linker.home) && linker.next == old(linker.next)
      ensures var m := old(Model());
              Model() == m.(status := m.status[linker.t.id := Running], run := linker.t.id,
                            waitingNum := m.waitingNum - 1)
    {
      SetStatus(linker.t, Running);
      SetRunning(linker);
      CountWaiting(-1);
    }

    /** Gives 1 exactly if the thread is ready. The status has changed even if it is not. */
    method ReadyToRunning(t: Thread) returns (r: int)
      requires Shape() && t.id < addrs.Length && addrs[t.id] == t && readyNum > 0 && ready.items != []
      requires NoDup(Model().ready)
      modifies repr - {addrs}
      ensures Shape() && repr == old(repr) && prims == old(prims)
      ensures r == (if t.id in old(Model()).ready then 1 else 0) && (r == 1 ==> Current())
      ensures r == 1 ==> Scheduler.ReadyToRunning(old(Model()), t.id) == Some(Model())
      ensures r == 0 ==>
                && Scheduler.ReadyToRunning(old(Model()), t.id) == None
                && var m := old(Model()); Model() == m.(status := m.status[t.id := Running])
    {
      hide Without, NoDup, WaitMap;
      SetStatus(t, Running);
      var linker := ExtractReady(t);
      if linker == null {
        return 0;
      }
      SetRunning(linker);
      CountReady(-1);
      r := 1;
    }

    lemma WaitsAt(p: Prim)
      requires p in prims
      ensures p in WaitMap() && WaitMap()[p] == Ids(p.waiting.items)
    {
    }

    method ExtractLockWaiting(p: Prim) returns (head: Link?)
      requires Shape() && p in prims
      modifies repr - {addrs}
      ensures Shape() && repr == old(repr) && prims == old(prims) && tRunning == old(tRunning)
      ensures old(Current()) ==> Current()
      ensures head == null <==> old(Model()).waits[p] == []
      ensures head == null ==> Model() == old(Model())
      ensures head != null ==>
                && head.home == null && head.next == null && head in repr && head.t in repr
                && head.t.id < addrs.Length && addrs[head.t.id] == head.t
      ensures head != null ==>
                var m := old(Model());
                m.waits[p][0] == head.t.id && Model() == m.(waits := m.waits[p := m.waits[p][1..]])
    {
      hide NoDup, StatusMap, WaitMap;
      WaitsAt(p);
      head := p.waiting.ExtractFirst();
      forall q | q in prims && q != p ensures Queue(q.waiting) {
        Unmoved(q.waiting);
      }
      Unmoved(ready);
      SameStatuses();
      OneQueueChanged(p);
      assert head != null ==> old(Ids(p.waiting.items)) == [head.t.id] + Ids(p.waiting.items);
    }

    // ---------- Operations ----------

    method ThreadSleep(p: Prim)
      requires Valid() && p in prims
      modifies repr - {addrs}
      ensures Shape() && Current() && repr == old(repr) && prims == old(prims)
      ensures old(Legal(Model(), SleepOp(p))) ==> Valid()
      ensures Sleep(old(Model()), p) == Some(Model())
    {
      hide Inv;
      InvFacts(Model());
      SleepExactly(Model(), p);
      if readyNum != 0 {
        var cur := tRunning;
        RunningToLockWaiting(cur, p);
        DispatchHead();
      }
    }

    /** The second half of the sleep operation. */
    method DispatchHead()
      requires Shape() && ready.items != []
      modifies repr - {addrs}
      ensures Shape() && repr == old(repr) && prims == old(prims) && Current()
      ensures
        var m := old(Model());
        var head := m.ready[0];
        Model() == m.(ready := m.ready[1..], status := m.status[head := Running], run := head,
                      readyNum := m.readyNum - 1, cur := head)
    {
      assert ready.start != null && ready.end != null;
      var head := TakeReady();
      SetStatus(head.t, Running);
      SetRunning(head);
      CountReady(-1);
      SetCurrentId(head.t.id);
    }

    method TakeReady() returns (head: Link)
      requires Shape() && ready.items != []
      modifies repr - {addrs}
      ensures Shape() && repr == old(repr) && prims == old(prims) && tRunning == old(tRunning)
      ensures head in repr && head.t in repr && head.home == null && (ready.items == [] ==> head.next == null)
      ensures head.t.id < addrs.Length && addrs[head.t.id] == head.t
      ensures var m := old(Model()); m.ready != [] && head.t.id == m.ready[0] && Model() == m.(ready := m.ready[1..])
    {
      head := ready.TakeHead();
      assert old(Ids(ready.items)) == [head.t.id] + Ids(ready.items);
      forall p | p in prims ensures Queue(p.waiting) {
        Unmoved(p.waiting);
      }
      SameWaits();
      SameStatuses();
    }

    method ThreadWakeup(p: Prim)
      requires Valid() && p in prims
      modifies repr - {addrs}
      ensures Valid() && repr == old(repr) && prims == old(prims)
      ensures Model() == Wakeup(old(Model()), p) && waitingNum == old(waitingNum)
    {
      hide Inv, Queue, StatusMap;
      ghost var m := Model();
      InvFacts(m);
      WakeupKeeps(m, p);
      var head := ExtractLockWaiting(p);
      if head != null {
        NoteWoken();
        assert head != tRunning;
        RunningToReady(head);
        assert Model() == Wakeup(m, p);
      } else {
        assert Model() == m;
      }
    }

    method ThreadWakeupWait(p: Prim)
      requires Valid() && p in prims
      modifies repr - {addrs}
      ensures Shape() && Current() && repr == old(repr) && prims == old(prims)
      ensures old(Legal(Model(), WakeupWaitOp(p))) ==> Valid()
      ensures WakeupWait(old(Model()), p) == Some(Model())
    {
      hide Inv, Scheduler.ChangePlaces, Queue, StatusMap;
      InvFacts(Model());
      WakeupWaitExactly(Model(), p);
      var head := ExtractLockWaiting(p);
      if head != null {
        ChangePlaces(head, p);
      }
    }

    /** The running thread goes to the tail of `p`'s queue and `head` runs in its place. */
    method ChangePlaces(head: Link, p: Prim)
      requires Shape() && Current() && p in prims && waitingNum >= 0
      requires head in repr && head.t in repr && head.home == null && head.next == null && head != tRunning
      requires head.t.id < addrs.Length && addrs[head.t.id] == head.t
      modifies repr - {addrs}
      ensures Shape() && Current() && repr == old(repr) && prims == old(prims)
      ensures Scheduler.ChangePlaces(old(Model()), p, head.t.id) == Some(Model())
    {
      hide Queue, StatusMap, WaitMap;
      var cur := tRunning;
      RunningToLockWaiting(cur, p);
      ghost var m := Model();
      assert waitingNum == m.waitingNum;
      WaitingToRunning(head);
      SetCurrentId(head.t.id);
    }

    /** The guards are the library's own: the target is another thread of the table and, unless it is the
        boot thread, ready. */
    method ThreadResume(t: Tid) returns (r: int)
      requires Valid() && Resume(Model(), t).Some?
      modifies repr - {addrs}
      ensures Shape() && repr == old(repr) && prims == old(prims) && r == 1
      ensures old(t in Model().ready) ==> Valid()
      ensures Resume(old(Model()), t) == Some(Model())
    {
      hide Inv;
      InvFacts(Model());
      ResumeExactly(Model(), t);
      assert tRunning.t.id != t;
      var cur := tRunning.t;
      var next := addrs[t];
      assert next != null;
      if tRunning.t.id != BOOT {
        RunningToReady(tRunning);
      } else {
        SetStatus(cur, Ready);
      }
      SetCurrentId(t);
      if t != BOOT {
        r := ReadyToRunning(next);
      } else {
        SetStatus(next, Running);
      }
      r := 1;
    }

    method ThreadYield() returns (r: int)
      requires Valid() && Yield(Model()).Some?
      modifies repr - {addrs}
      ensures Shape() && repr == old(repr) && prims == old(prims) && r == 1
      ensures old(Legal(Model(), YieldOp)) ==> Valid()
      ensures Yield(old(Model())) == Some(Model())
    {
      hide Inv;
      InvFacts(Model());
      if readyNum != 0 {
        assert Model().ready[0] == ready.start.t.id;
        r := ThreadResume(ready.start.t.id);
      } else {
        r := ThreadResume(BOOT);
      }
    }

    lemma OnNoQueue(t: Tid)
      requires Shape() && t !in Model().ready
      requires forall p | p in prims :: t !in Model().waits[p]
      ensures forall l | l in ready.items :: l.t.id != t
      ensures forall p, l | p in prims && l in p.waiting.items :: l.t.id != t
    {
      forall l | l in ready.items ensures l.t.id != t {
        var k :| 0 <= k < |ready.items| && ready.items[k] == l;
        assert Ids(ready.items)[k] == l.t.id;
      }
      forall p, l | p in prims && l in p.waiting.items ensures l.t.id != t {
        var k :| 0 <= k < |p.waiting.items| && p.waiting.items[k] == l;
        assert Model().waits[p][k] == l.t.id;
      }
    }

    method Forget(t: Tid)
      requires Shape() && t < addrs.Length && t !in Model().ready
      requires forall p | p in prims :: t !in Model().waits[p]
      modifies repr
      ensures Shape() && repr == old(repr) && prims == old(prims)
      ensures var m := old(Model()); Model() == m.(status := m.status - {t}, num := m.num - 1)
    {
      OnNoQueue(t);
      addrs[t] := null;
      num := num - 1;
      forall p | p in prims ensures Queue(p.waiting) {
        Unmoved(p.waiting);
      }
      Unmoved(ready);
      SameWaits();
      assert StatusMap() == old(StatusMap()) - {t};
    }

    method ThreadExit()
      requires Valid() && Exit(Model()).Some?
      modifies repr
      ensures Shape() && repr == old(repr) && prims == old(prims)
      ensures old(Legal(Model(), ExitOp)) ==> Valid()
      ensures Exit(old(Model())) == Some(Model())
    {
      hide Inv, Without, NoDup;
      InvFacts(Model());
      ExitExactly(Model());
      Forget(coCurrentId);
      if readyNum != 0 {
        HandOver();
      } else {
        var next := addrs[BOOT];
        SetCurrentId(BOOT);
        SetStatus(next, Running);
      }
    }

    /** The last part of the exit: the head of the ready queue becomes the running thread. */
    method HandOver()
      requires Shape() && Model().ready != [] && NoDup(Model().ready) && readyNum > 0
      modifies repr - {addrs}
      ensures Shape() && Current() && repr == old(repr) && prims == old(prims)
      ensures
        var m := old(Model());
        Scheduler.ReadyToRunning(m.(cur := m.ready[0]), m.ready[0]) == Some(Model())
    {
      hide Without, NoDup;
      var t := ready.start.t.id;
      assert t == Model().ready[0];
      var next := addrs[t];
      SetCurrentId(t);
      var r := ReadyToRunning(next);
    }

    /** Puts a new thread into the table under the next id. */
    method Enrol(t: Thread, link: Link)
      requires Shape() && t.id == newId < addrs.Length && t !in repr && link !in repr && t.status == Ready
      requires addrs[newId] == null
      modifies repr
      ensures Shape() && Model() == (var m := old(Model());
        m.(newId := m.newId + 1, num := m.num + 1, readyNum := m.readyNum + 1, status := m.status[m.newId := Ready]))
      ensures repr == old(repr) + {t, link} && prims == old(prims) && tRunning == old(tRunning)
      ensures tRunning.home == old(tRunning.home) && link.home == old(link.home) && link.next == old(link.next)
      ensures addrs[t.id] == t && forall i: nat | i < addrs.Length && i != t.id :: addrs[i] == old(addrs[i])
    {
      addrs[t.id] := t;
      newId := newId + 1;
      num := num + 1;
      readyNum := readyNum + 1;
      repr := repr + {t, link};
      SameWaits();
      assert StatusMap() == old(StatusMap())[t.id := Ready];
    }

    method ThreadCreate() returns (id: Tid)
      requires Valid() && Legal(Model(), CreateOp)
      modifies repr
      ensures Valid() && fresh(repr - old(repr)) && prims == old(prims) && id == old(newId)
      ensures Create(old(Model())) == Some(Model())
    {
      hide Inv, Queue, WaitMap;
      InvFacts(Model());
      CreateKeeps(Model());
      id := newId;
      assert id !in StatusMap();
      var t := new Thread(id, Ready);
      var link := new Link(t);
      Enrol(t, link);
      AppendReady(link);
    }

    /** Allocates a primitive and takes it into the pool. */
    method Adopt() returns (p: Prim)
      requires Shape() && Current()
      modifies this`prims, this`repr
      ensures Shape() && Current() && fresh(p) && fresh(repr - old(repr)) && prims == old(prims) + {p}
      ensures Model() == NewPrim(old(Model()), p)
    {
      hide NoDup, NewPrim;
      p := new Prim();
      prims := prims + {p};
      repr := repr + {p.waiting};
      SameStatuses();
      Adopted(p);
    }

    twostate lemma Adopted(new p: Prim)
      requires old(Shape()) && Shape() && prims == old(prims) + {p} && p !in old(prims) && p.waiting.items == []
      requires forall q | q in old(prims) :: q.waiting.items == old(q.waiting.items)
      requires Model().(waits := map[]) == old(Model()).(waits := map[])
      ensures Model() == NewPrim(old(Model()), p)
    {
      assert Ids(p.waiting.items) == [];
      assert WaitMap() == old(WaitMap())[p := []];
    }

    method CreatePrim() returns (p: Prim)
      requires Valid()
      modifies repr
      ensures Valid() && fresh(p) && fresh(repr - old(repr)) && prims == old(prims) + {p}
      ensures Model() == NewPrim(old(Model()), p)
    {
      hide Inv, NoDup;
      ghost var m := Model();
      p := Adopt();
      NewPrimExactly(m, p);
    }
  }

  lemma {:induction false} IdsWithout(items: seq<Link>, l: Link)
    requires l in items && NoDup(Ids(items))
    ensures Ids(Without(items, l)) == Without(Ids(items), l.t.id)
  {
    if items[0] != l {
      var k :| 0 < k < |items| && items[k] == l;
      assert Ids(items)[0] != Ids(items)[k];
      assert Ids(items)[1..] == Ids(items[1..]);
      IdsWithout(items[1..], l);
      assert Ids([items[0]] + Without(items[1..], l)) == [items[0].t.id] + Ids(Without(items[1..], l));
    } else {
      assert Ids(items)[1..] == Ids(items[1..]);
    }
  }
}
