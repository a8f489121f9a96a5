/** Joining on the heap: the pool, each thread's list of join blocks and each thread's own block, changed
    in place and proved to act on `Model()` as the transition system of the joins does. */
module JoinObjects {
  import opened Sequences
  import opened Scheduler
  import opened Queues
  import opened ThreadPool
  import opened JoinLists
  import SyncObjects
  import Joins
  import Turns

  ghost function Callers(items: seq<JoinBlock>): seq<Tid> {
    seq(|items|, k requires 0 <= k < |items| => items[k].caller)
  }

  /** How a join, or a turn of its loop, ends. */
  datatype End = ReturnsOne | Switches | ReturnsToBoot | JoinsItself | NoSuchThread

  class JoinPool {
    const pool: Pool
    /** The list of every thread ever created; an exited thread's stays readable. */
    var lists: map<Tid, JoinList>
    /** The block of each thread that is joining another. */
    var own: map<Tid, JoinBlock>
    ghost var stamps: map<Tid, nat>
    ghost var exited: set<Tid>
    ghost var clock: nat

    ghost function JoinMap(): map<Tid, Joins.Join>
      reads *
    {
      map t | t in pool.Model().status ::
        if t in own && t in stamps then Joins.Joining(own[t].joiner, own[t].joinable, stamps[t]) else Joins.NotJoining
    }

    ghost function Joined(): map<Tid, seq<Tid>>
      reads *
    {
      map x | x in lists :: Callers(lists[x].items)
    }

    ghost function Model(): Joins.State
      reads *
    {
      Joins.State(pool.Model(), JoinMap(), Joined(), exited, clock)
    }

    /** A block on a list is its caller's own, and joins the thread whose list it is on. */
    ghost predicate Listed()
      reads *
    {
      forall x, b | x in lists && b in lists[x].items ::
        b !in pool.repr && b.caller in own && own[b.caller] == b && b.joiner == x
    }

    /** A thread's own block is on its target's list. */
    ghost predicate Owned()
      reads *
    {
      forall t | t in own ::
        && own[t].caller == t && t in stamps && own[t] !in pool.repr
        && own[t].joiner in lists && own[t] in lists[own[t].joiner].items
    }

    /** Lists and blocks are none of the pool's objects. */
    ghost predicate Shape()
      reads *
    {
      && this !in pool.repr
      && (forall x | x in lists :: lists[x].Valid() && lists[x] !in pool.repr)
      && (forall x, y | x in lists && y in lists && x != y :: lists[x] != lists[y])
      && Listed() && Owned()
    }

    ghost predicate Valid()
      reads *
    {
      pool.Valid() && Shape() && Joins.Inv(Model())
    }

    /** A thread has returned to the boot thread. */
    ghost predicate AtBoot()
      reads *
    {
      pool.Shape() && Shape() && Joins.Back(Model())
    }

    /** The outcome `o` of the transition system is the end `r`, and the state is the one it leads to. */
    ghost predicate Ends(o: Joins.Outcome, r: End)
      reads *
    {
      match o
      case Returned(s) => r == ReturnsOne && (Valid() || AtBoot()) && Model() == s
      case Switched(s) => r == Switches && Valid() && Model() == s
      case ToBoot(s) => r == ReturnsToBoot && AtBoot() && Model() == s
      case JoinsItself(s) => r == End.JoinsItself && pool.Valid() && Shape() && Model() == s
      case NoSuchThread => r == End.NoSuchThread && (Valid() || AtBoot())
      case Failed => false
    }

    constructor (pool: Pool)
      requires pool.Valid() && pool.Model() == Initial()
      ensures this.pool == pool && Shape() && Model() == Joins.Start()
    {
      hide Inv, Pool.Valid, Pool.Shape, Pool.Model, Initial, Model;
      this.pool := pool;
      var list := new JoinList();
      lists := map[BOOT := list];
      own, stamps, exited, clock := map[], map[], {}, 0;
      new;
      SyncObjects.Untouched(pool);
      StartsFresh(list);
    }

    lemma StartsFresh(list: JoinList)
      requires lists == map[BOOT := list] && list.items == [] && own == map[] && exited == {} && clock == 0
      requires pool.Model() == Initial()
      ensures Model() == Joins.Start()
    {
      hide Pool.Model;
      assert JoinMap() == map[BOOT := Joins.NotJoining];
      assert Callers(list.items) == [];
    }

    /** What the pool does alone leaves lists and blocks as they are. */
    twostate lemma PoolOnly()
      requires old(Shape()) && unchanged(this)
      requires forall o | o in pool.repr :: o in old(pool.repr) || fresh(o)
      requires forall x | x in lists :: unchanged(lists[x]) && forall b | b in lists[x].items :: unchanged(b)
      ensures Shape() && Joined() == old(Joined())
      ensures Model() == old(Model()).(sched := pool.Model(), join := JoinMap())
      ensures pool.Model().status.Keys == old(pool.Model().status.Keys) ==> JoinMap() == old(JoinMap())
    {
      hide Pool.Model;
      forall y | y in lists ensures lists[y].Valid() {
        SameList(lists[y]);
      }
      forall t | t in own ensures own[t].joinable == old(own[t].joinable) {
        assert own[t] in lists[own[t].joiner].items;
      }
    }

    /** Lists other than that of `x` stay as they are. */
    twostate predicate OnlyList(x: Tid)
      reads *
    {
      && lists == old(lists) && x in lists && lists[x].Valid()
      && forall y | y in lists && y != x ::
           unchanged(lists[y]) && forall b | b in lists[y].items :: unchanged(b)
    }

    twostate lemma OthersValid(x: Tid)
      requires old(Shape()) && OnlyList(x)
      ensures forall y | y in lists :: lists[y].Valid()
      ensures forall y | y in lists && y != x :: lists[y].items == old(lists[y].items)
      ensures Joined() == old(Joined())[x := Callers(lists[x].items)]
    {
      forall y | y in lists ensures lists[y].Valid() {
        if y != x { SameList(lists[y]); }
      }
    }

    /** The marked block of the running thread comes off its target's list. */
    method DeleteBlock(x: Tid, block: JoinBlock)
      requires Shape() && x in lists && block in lists[x].items
      modifies lists[x], lists[x].items
      ensures OnlyList(x) && lists[x].items == Without<JoinBlock>(old(lists[x].items), block)
      ensures forall b: JoinBlock | b in old(lists[x].items) :: b.joinable == old(b.joinable)
    {
      assert forall y, b | y in lists && y != x && b in lists[y].items :: b !in lists[x].items;
      lists[x].Delete(block);
    }

    /** `block` has been taken off its list and is no longer its caller's own. */
    twostate predicate Taken(block: JoinBlock)
      reads *
    {
      && OnlyList(block.joiner) && pool.repr == old(pool.repr) && stamps == old(stamps)
      && block in old(lists[block.joiner].items)
      && lists[block.joiner].items == Without<JoinBlock>(old(lists[block.joiner].items), block)
      && own == old(own) - {block.caller}
    }

    twostate lemma TakenListed(block: JoinBlock)
      requires old(Shape()) && Taken(block)
      ensures Listed()
    {
      hide Without, NoDup, Owned;
      OthersValid(block.joiner);
      CutBlock(old(lists[block.joiner].items), block, old(own));
    }

    twostate lemma TakenOwned(block: JoinBlock)
      requires old(Shape()) && Taken(block)
      ensures Owned()
    {
      hide Without, NoDup, Joined;
      OthersValid(block.joiner);
      CutBlock(old(lists[block.joiner].items), block, old(own));
    }

    twostate lemma TakenShape(block: JoinBlock)
      requires old(Shape()) && Taken(block)
      ensures Shape()
    {
      hide Without, NoDup, Listed, Owned;
      OthersValid(block.joiner);
      TakenListed(block);
      TakenOwned(block);
    }

    twostate lemma TakenJoined(block: JoinBlock)
      requires old(Shape()) && Taken(block)
      ensures var x := block.joiner; Joined() == old(Joined())[x := Without(old(Joined())[x], block.caller)]
    {
      var items := old(lists[block.joiner].items);
      CallersDistinct(items, old(own));
      var i :| 0 <= i < |items| && items[i] == block;
      CallersWithout(items, block, i);
      OthersValid(block.joiner);
    }

    method Detach(block: JoinBlock)
      requires Shape() && block.joiner in lists && block in lists[block.joiner].items
      modifies this`own, lists[block.joiner], lists[block.joiner].items
      ensures Taken(block)
      ensures forall b: JoinBlock | b in old(lists[block.joiner].items) :: b.joinable == old(b.joinable)
    {
      DeleteBlock(block.joiner, block);
      own := own - {block.caller};
    }

    method TakeBlock(block: JoinBlock)
      requires Shape() && pool.Shape() && block.joiner in lists && block in lists[block.joiner].items
      modifies this`own, lists[block.joiner], lists[block.joiner].items
      ensures Shape() && pool.Shape() && pool.Model() == old(pool.Model()) && lists == old(lists)
      ensures old(pool.Valid()) ==> pool.Valid()
      ensures exited == old(exited) && clock == old(clock) && own == old(own) - {block.caller} && stamps == old(stamps)
      ensures var x := block.joiner; Joined() == old(Joined())[x := Without(old(Joined())[x], block.caller)]
      ensures forall t | t in own :: own[t].joinable == old(own[t].joinable)
    {
      hide Inv, Shape, Joined, Pool.Valid, Pool.Shape, Pool.Model, Without, Callers, NoDup;
      OutsidePool();
      Detach(block);
      TakenShape(block);
      TakenJoined(block);
      SameMarks(block.joiner);
      SyncObjects.Kept(pool);
    }

    twostate lemma SameMarks(x: Tid)
      requires old(Shape()) && OnlyList(x) && forall t | t in own :: t in old(own) && own[t] == old(own)[t]
      requires forall b: JoinBlock | b in old(lists[x].items) :: b.joinable == old(b.joinable)
      ensures forall t | t in own :: own[t].joinable == old(own[t].joinable)
    {
      hide Joined;
      forall t | t in own ensures own[t].joinable == old(own[t].joinable) {
        var b := own[t];
        assert b in old(lists[b.joiner].items);
        if b.joiner != x {
          assert unchanged(lists[b.joiner]) && b in lists[b.joiner].items;
        }
      }
    }

    // ---------- A turn of the loop ----------

    /** The running thread has a block of its own. */
    ghost predicate Joining()
      reads *
    {
      Model().Run() in Model().join && Model().join[Model().Run()].Joining?
    }

    lemma OwnJoin()
      requires (Valid() || AtBoot()) && Joining()
      ensures
        var me := pool.coCurrentId;
        && me == Model().Run() && me in own && me in stamps && own[me].joiner in lists && own[me].caller == me
        && own[me] in lists[own[me].joiner].items
        && Model().join[me] == Joins.Joining(own[me].joiner, own[me].joinable, stamps[me])
    {
      hide Joins.Inv, Joins.Back, Inv;
    }

    /** With its own block gone the thread joins nobody. */
    twostate lemma NotJoiningAnyMore(me: Tid)
      requires old(Shape()) && me in pool.Model().status && pool.Model() == old(pool.Model())
      requires own == old(own) - {me} && stamps == old(stamps) && exited == old(exited) && clock == old(clock)
      requires forall t | t in own :: own[t].joinable == old(own[t].joinable)
      ensures Model() == old(Model()).(joined := Joined(), join := old(JoinMap())[me := Joins.NotJoining])
    {
      hide Pool.Model, Shape;
      assert JoinMap() == old(JoinMap())[me := Joins.NotJoining];
    }

    /** One turn of the loop of the thread that executes, also of a boot thread that was returned to and
        whose block is marked. */
    method Turn() returns (r: End)
      requires (Valid() || AtBoot()) && Joining()
      requires AtBoot() ==> Model().join[Model().Run()].joinable
      modifies this`own, lists[own[pool.coCurrentId].joiner], lists[own[pool.coCurrentId].joiner].items
      modifies pool.repr - {pool.addrs}
      ensures Ends(Joins.JoinLoop(old(Model())), r)
    {
      hide Inv, Shape, Joined, JoinMap, Joins.Inv, Joins.Back, Without, NoDup, Callers;
      ghost var s := Model();
      OwnJoin();
      var me := pool.coCurrentId;
      if own[me].joinable {
        Joins.ReturnKeeps(s);
        Joins.TableFacts(s);
        TakeBlock(own[me]);
        NotJoiningAnyMore(me);
        return ReturnsOne;
      }
      var x := own[me].joiner;
      r := Hand(x);
    }

    /** The hand-over of a join that is not over. */
    method Hand(x: Tid) returns (r: End)
      requires Valid() && Joining() && x == Model().join[Model().Run()].target && !Model().join[Model().Run()].joinable
      modifies pool.repr - {pool.addrs}
      ensures Ends(Joins.JoinLoop(old(Model())), r)
    {
      hide Inv, Shape, Joined, JoinMap, Joins.Inv, Joins.Back, Without, NoDup, Callers;
      ghost var s := Model();
      Joins.LoopOutcome(s);
      HandFacts(s, x);
      InTable(x);
      OutsidePool();
      var target := pool.addrs[x];
      if target.status == Ready {
        var one := pool.ThreadResume(x);
        r := if x == BOOT then ReturnsToBoot else Switches;
      } else {
        r := if pool.readyNum == 0 then ReturnsToBoot else Switches;
        var one := pool.ThreadYield();
      }
      PoolOnly();
    }

    /** The target of a join that is not over is in the table and does not run. */
    lemma HandFacts(s: Joins.State, x: Tid)
      requires Joins.Inv(s) && s.Run() in s.join && s.join[s.Run()].Joining?
      requires x == s.join[s.Run()].target && !s.join[s.Run()].joinable
      ensures x in s.sched.status && x != s.sched.run && s.sched.status[x] != Running
    {
      Joins.TargetLive(s, s.Run());
      Joins.TargetPlace(s, x);
      Joins.TableFacts(s);
    }

    lemma OutsidePool()
      requires Shape()
      ensures this !in pool.repr && forall t | t in own :: own[t] !in pool.repr
      ensures forall x | x in lists :: lists[x] !in pool.repr && forall b | b in lists[x].items :: b !in pool.repr
    {
    }

    lemma InTable(x: Tid)
      requires pool.Valid() && x in pool.Model().status && x != pool.tRunning.t.id
      ensures x < pool.addrs.Length && pool.addrs[x] != null && pool.Model().status[x] == pool.addrs[x].status
      ensures x != BOOT ==> (pool.addrs[x].status == Ready <==> x in pool.Model().ready)
    {
    }

    // ---------- The call ----------

    /** A boot thread that was returned to is followed only where its join ends at the table look-up. */
    method Join(id: Tid) returns (r: End)
      requires (Valid() || AtBoot()) && !Joining() && Model().Run() in Model().join && id < pool.addrs.Length
      requires AtBoot() ==> pool.addrs[id] == null
      modifies this, Blocks(), pool.repr - {pool.addrs}
      ensures Ends(Joins.JoinCall(old(Model()), id), r)
    {
      hide Inv, Shape, Joined, JoinMap, Joins.Inv, Joins.Back, Without, NoDup, Callers;
      ghost var s := Model();
      Joins.CallOutcome(s, id);
      LookedUp(id);
      var me := pool.coCurrentId;
      if pool.addrs[id] == null {
        return if id >= pool.newId then End.NoSuchThread else ReturnsOne;
      }
      Joins.AddBlockKeeps(s, id);
      CallerFacts(id);
      AddBlock(id);
      if id == me {
        return End.JoinsItself;
      }
      OwnJoin();
      NotAtBoot();
      r := Turn();
    }

    lemma NotAtBoot()
      requires Valid()
      ensures !AtBoot()
    {
    }

    /** All lists and all blocks on them. */
    ghost function Blocks(): set<object>
      reads *
    {
      (set x | x in lists :: lists[x] as object)
      + (set x, b: JoinBlock | x in lists && b in lists[x].items :: b as object)
    }

    lemma CallerFacts(id: Tid)
      requires Valid() && !Joining() && Model().Run() in Model().join && id in Model().sched.status
      ensures id in lists && pool.tRunning.t.id !in own && pool.tRunning.t.id in pool.Model().status
      ensures pool.tRunning.t.id == pool.coCurrentId == pool.Model().cur
      ensures lists[id] in Blocks() && forall b | b in lists[id].items :: b in Blocks()
    {
      hide Inv;
      InvFacts(pool.Model());
      assert id in Joined();
    }

    lemma LookedUp(id: Tid)
      requires (Valid() || AtBoot()) && id < pool.addrs.Length
      ensures pool.addrs[id] == null <==> id !in Model().sched.status
      ensures pool.newId == Model().sched.newId && pool.coCurrentId == Model().Run()
    {
      hide Inv, Joins.Inv, Joins.Back;
    }

    /** The caller's new block goes to the end of the target's list. */
    method AddBlock(x: Tid)
      requires Shape() && pool.Valid() && x in lists && pool.tRunning.t.id !in own
      requires pool.tRunning.t.id in pool.Model().status && pool.tRunning.t.id == pool.Model().cur
      modifies this, lists[x], lists[x].items
      ensures Shape() && pool.Valid() && lists == old(lists) && pool.tRunning.t.id in own
      ensures fresh(own[pool.tRunning.t.id]) && own[pool.tRunning.t.id].joiner == x
      ensures lists[x].items == old(lists[x].items) + [own[pool.tRunning.t.id]]
      ensures own.Keys == old(own.Keys) + {pool.tRunning.t.id}
      ensures Model() == Joins.AddBlock(old(Model()), x)
    {
      hide Inv, Shape, Joined, JoinMap, Pool.Valid, Pool.Shape, Pool.Model, Callers, NoDup;
      var me := pool.tRunning.t.id;
      OutsidePool();
      var block := PutOn(x, me);
      own := own[me := block];
      stamps := stamps[me := clock];
      clock := clock + 1;
      SyncObjects.Untouched(pool);
      AddedShape(x, block);
      AddedModel(x, block);
    }

    method PutOn(x: Tid, me: Tid) returns (block: JoinBlock)
      requires Shape() && x in lists
      modifies lists[x], lists[x].items
      ensures OnlyList(x) && fresh(block) && lists[x].items == old(lists[x].items) + [block]
      ensures block.caller == me && block.joiner == x && !block.joinable
      ensures forall b: JoinBlock | b in old(lists[x].items) :: b.joinable == old(b.joinable)
    {
      block := new JoinBlock(me, x);
      assert forall y, b | y in lists && y != x && b in lists[y].items :: b !in lists[x].items;
      lists[x].Append(block);
    }

    twostate predicate Added(x: Tid, new block: JoinBlock)
      reads *
    {
      && OnlyList(x) && lists[x].items == old(lists[x].items) + [block] && fresh(block)
      && pool.repr == old(pool.repr) && block.joiner == x && !block.joinable && block.caller !in old(own)
      && own == old(own)[block.caller := block] && stamps == old(stamps)[block.caller := old(clock)]
      && (forall b: JoinBlock | b in old(lists[x].items) :: b.joinable == old(b.joinable))
    }

    twostate lemma AddedListed(x: Tid, new block: JoinBlock)
      requires old(Shape()) && Added(x, block)
      ensures Listed()
    {
      hide Callers, Joined;
      OthersValid(x);
    }

    twostate lemma AddedOwned(x: Tid, new block: JoinBlock)
      requires old(Shape()) && Added(x, block)
      ensures Owned()
    {
      hide Callers, Joined;
      OthersValid(x);
    }

    twostate lemma AddedShape(x: Tid, new block: JoinBlock)
      requires old(Shape()) && Added(x, block)
      ensures Shape()
    {
      hide Callers, Joined, Listed, Owned;
      OthersValid(x);
      AddedListed(x, block);
      AddedOwned(x, block);
    }

    twostate lemma AddedMarks(x: Tid, new block: JoinBlock)
      requires old(Shape()) && Added(x, block)
      ensures forall t | t in old(own) :: own[t] == old(own[t]) && own[t].joinable == old(own[t].joinable)
    {
      hide Joined;
      forall t | t in old(own) ensures own[t] == old(own[t]) && own[t].joinable == old(own[t].joinable) {
        var b := old(own[t]);
        assert b in old(lists[b.joiner].items);
        if b.joiner != x {
          assert unchanged(lists[b.joiner]) && b in lists[b.joiner].items;
        }
      }
    }

    twostate lemma AddedModel(x: Tid, new block: JoinBlock)
      requires old(Shape()) && Added(x, block) && Shape() && clock == old(clock) + 1 && exited == old(exited)
      requires pool.Model() == old(pool.Model())
      requires block.caller == pool.Model().cur && block.caller in pool.Model().status
      ensures Model() == Joins.AddBlock(old(Model()), x)
    {
      hide Pool.Model, JoinMap, Shape;
      AddedMarks(x, block);
      AddedJoin(x, block);
      OthersValid(x);
      assert Callers(lists[x].items) == Callers(old(lists[x].items)) + [block.caller];
    }

    twostate lemma AddedJoin(x: Tid, new block: JoinBlock)
      requires old(Shape()) && Added(x, block)
      requires pool.Model() == old(pool.Model()) && block.caller in pool.Model().status
      requires forall t | t in old(own) :: own[t] == old(own[t]) && own[t].joinable == old(own[t].joinable)
      ensures JoinMap() == old(JoinMap())[block.caller := Joins.Joining(x, false, old(clock))]
    {
      hide Pool.Model, Joined, Shape;
    }

    // ---------- Exit and creation ----------

    twostate predicate MarkedList(x: Tid)
      reads *
    {
      && lists == old(lists) && own == old(own) && stamps == old(stamps) && x in lists
      && (forall y | y in lists :: unchanged(lists[y]))
      && (forall y, b | y in lists && b in lists[y].items :: b.next == old(b.next) && b.home == old(b.home))
      && (forall t | t in own :: own[t].joinable == (old(own[t].joinable) || own[t] in lists[x].items))
    }

    method Mark(x: Tid)
      requires Shape() && x in lists
      modifies this`exited, lists[x].items`joinable
      ensures MarkedList(x) && exited == old(exited) + {x}
    {
      lists[x].MarkAll();
      exited := exited + {x};
    }

    twostate lemma MarkedShape(x: Tid)
      requires old(Shape()) && MarkedList(x) && pool.repr == old(pool.repr)
      ensures Shape() && Joined() == old(Joined())
    {
      forall y | y in lists ensures lists[y].Valid() {
        SameList(lists[y]);
      }
    }

    twostate lemma MarkedMap(x: Tid)
      requires old(Shape()) && MarkedList(x) && x !in own
      requires pool.Model().status.Keys == old(pool.Model().status.Keys) - {x}
      ensures JoinMap() == Joins.Marked(old(Model()), x)
    {
      hide Pool.Model, NoDup;
      CallersDistinct(lists[x].items, own);
      forall c | c in own ensures c in Callers(lists[x].items) <==> own[c] in lists[x].items {
        assert own[c].caller == c;
      }
    }

    /** The exit marks every block on the thread's list, and hands over to the head of the ready queue or
        else returns to the boot thread. */
    method Exit()
      requires Valid() && !Joining() && Model().Run() in Model().join && Scheduler.Exit(pool.Model()).Some?
      modifies this`exited, Blocks(), pool.repr
      ensures old(Model().Run() in Model().joined) && Model() == Joins.Exits(old(Model()))
      ensures pool.Shape() && Shape()
      ensures old(Model().Run() != BOOT && Model().sched.ready != []) ==> Valid()
      ensures old(Model().Run() != BOOT && Model().sched.ready == []) ==> AtBoot()
    {
      hide Inv, Shape, Joined, JoinMap, Joins.Inv, Joins.Back, Pool.Shape, Pool.Model, Callers, MarkedList;
      ghost var s := Model();
      ExitingThread();
      ghost var me := s.Run();
      CallerFacts(me);
      if me != BOOT {
        Joins.ExitKeeps(s);
      }
      if me != BOOT && s.sched.ready != [] {
        ExitGuard(s);
      }
      MarkAndLeave();
      MarkedShape(me);
      MarkedMap(me);
    }

    method MarkAndLeave()
      requires Shape() && pool.Valid() && Scheduler.Exit(pool.Model()).Some? && pool.coCurrentId in lists
      modifies this`exited, lists[pool.coCurrentId].items`joinable, pool.repr
      ensures pool.Shape() && (old(Legal(pool.Model(), ExitOp)) ==> pool.Valid()) && pool.repr == old(pool.repr)
      ensures Scheduler.Exit(old(pool.Model())) == Some(pool.Model())
      ensures MarkedList(old(pool.coCurrentId)) && clock == old(clock) && own == old(own)
      ensures exited == old(exited) + {old(pool.coCurrentId)}
    {
      hide Inv, Shape, Joined, JoinMap, Pool.Shape, Pool.Model, Callers;
      OutsidePool();
      var me := pool.coCurrentId;
      Mark(me);
      SyncObjects.Untouched(pool);
      pool.ThreadExit();
    }

    lemma ExitGuard(s: Joins.State)
      requires Joins.Inv(s) && s.Run() != BOOT && s.sched.ready != []
      ensures Legal(s.sched, ExitOp)
    {
    }

    lemma ExitingThread()
      requires Valid()
      ensures pool.coCurrentId == Model().Run() && pool.coCurrentId in Model().sched.status
      ensures pool.coCurrentId == pool.tRunning.t.id
      ensures pool.coCurrentId in Model().joined
    {
      hide Inv, Shape, Pool.Shape, JoinMap, Joined;
      Joins.TableFacts(Model());
    }

    // ---------- Creation ----------

    /** A new thread starts with an empty list and no block. */
    method Create() returns (id: Tid)
      requires Valid() && Legal(pool.Model(), CreateOp)
      modifies this`lists, pool.repr
      ensures Valid() && id == old(pool.newId)
      ensures Scheduler.Create(old(pool.Model())) == Some(pool.Model())
      ensures Model() == Joins.Enrolled(old(Model()), pool.Model())
    {
      hide Inv, Shape, Joined, JoinMap, Joins.Inv, Without, NoDup, Callers;
      ghost var s := Model();
      NewId();
      Joins.CreateKeeps(s);
      OutsidePool();
      id := pool.ThreadCreate();
      label Created:
      var list := new JoinList();
      lists := lists[id := list];
      SyncObjects.Untouched@Created(pool);
      EnrolledShape(id, list);
      EnrolledModel(id, list);
    }

    /** A thread with a block is in the table. */
    lemma OwnInTable(t: Tid)
      requires Shape() && t in own && Joins.Inv(Model())
      ensures t in Model().join
    {
      hide Joins.Inv, Pool.Model, JoinMap;
      var x := own[t].joiner;
      CallersDistinct(lists[x].items, own);
      assert t in Model().joined[x];
      Joins.TableFacts(Model());
    }

    lemma NewId()
      requires Valid()
      ensures pool.newId == Model().sched.newId && pool.newId !in lists && pool.newId !in own
      ensures pool.newId !in pool.Model().status
    {
      hide Inv, Joins.Inv, Callers, Shape, Pool.Shape;
      Joins.TableFacts(Model());
      assert pool.newId !in Joined();
      if pool.newId in own {
        OwnInTable(pool.newId);
      }
    }

    twostate predicate ListAdded(id: Tid, new list: JoinList)
      reads *
    {
      && id !in old(lists) && lists == old(lists)[id := list] && fresh(list) && list.Valid() && list.items == []
      && own == old(own) && stamps == old(stamps) && exited == old(exited) && clock == old(clock)
      && (forall o | o in pool.repr :: o in old(pool.repr) || fresh(o)) && list !in pool.repr && this !in pool.repr
      && (forall x | x in old(lists) :: unchanged(old(lists)[x]) && forall b | b in old(lists)[x].items :: unchanged(b))
    }

    twostate lemma EnrolledShape(id: Tid, new list: JoinList)
      requires old(Shape()) && ListAdded(id, list)
      ensures Shape()
    {
      forall y | y in lists ensures lists[y].Valid() {
        if y != id { SameList(lists[y]); }
      }
    }

    twostate lemma EnrolledJoin(id: Tid, new list: JoinList)
      requires old(Shape()) && ListAdded(id, list) && id !in own && id !in old(pool.Model().status)
      requires pool.Model().status.Keys == old(pool.Model().status.Keys) + {id}
      ensures JoinMap() == old(JoinMap())[id := Joins.NotJoining]
    {
      hide Pool.Model, Joined;
      forall t | t in own ensures own[t].joinable == old(own[t].joinable) {
        assert own[t] in old(lists[own[t].joiner].items);
        assert unchanged(old(lists)[own[t].joiner]) && own[t] in old(lists)[own[t].joiner].items;
      }
    }

    twostate lemma EnrolledModel(id: Tid, new list: JoinList)
      requires old(Shape()) && ListAdded(id, list) && id !in own && id !in old(pool.Model().status)
      requires id == old(pool.Model().newId) && pool.Model().newId == id + 1
      requires pool.Model().status.Keys == old(pool.Model().status.Keys) + {id}
      ensures Model() == Joins.Enrolled(old(Model()), pool.Model())
    {
      hide Pool.Model, JoinMap, Shape;
      EnrolledJoin(id, list);
      assert Callers(list.items) == [];
      assert Joined() == old(Joined())[id := []];
    }
  }

  twostate lemma SameList(l: JoinList)
    requires old(l.Valid()) && unchanged(l) && forall b | b in l.items :: b.next == old(b.next) && b.home == old(b.home)
    ensures l.Valid()
  {
  }

  lemma CutBlock(items: seq<JoinBlock>, block: JoinBlock, own: map<Tid, JoinBlock>)
    requires NoDup(items) && block in items && forall b | b in items :: b.caller in own && own[b.caller] == b
    ensures forall b | b in Without<JoinBlock>(items, block) :: b in items && b.caller != block.caller
    ensures forall b | b in items && b != block :: b in Without<JoinBlock>(items, block)
  {
    WithoutProperties(items, block);
  }

  lemma CallersDistinct(items: seq<JoinBlock>, own: map<Tid, JoinBlock>)
    requires NoDup(items) && forall b | b in items :: b.caller in own && own[b.caller] == b
    ensures NoDup(Callers(items))
    ensures forall b | b in items :: b.caller in Callers(items)
    ensures forall c | c in Callers(items) :: c in own && own[c] in items
  {
    forall b | b in items ensures b.caller in Callers(items) {
      var k :| 0 <= k < |items| && items[k] == b;
      assert Callers(items)[k] == b.caller;
    }
    forall c | c in Callers(items) ensures c in own && own[c] in items {
      var k :| 0 <= k < |items| && Callers(items)[k] == c;
      assert items[k] in items;
    }
    forall i, j | 0 <= i < j < |items| ensures Callers(items)[i] != Callers(items)[j] {
      assert items[i] in items && items[j] in items;
    }
  }

  lemma CallersWithout(items: seq<JoinBlock>, b: JoinBlock, i: nat)
    requires NoDup(items) && NoDup(Callers(items)) && i < |items| && items[i] == b
    ensures Callers(Without<JoinBlock>(items, b)) == Without(Callers(items), b.caller)
  {
    WithoutAt<JoinBlock>(items, i);
    WithoutAt(Callers(items), i);
    assert Callers(items[..i] + items[i + 1..]) == Callers(items)[..i] + Callers(items)[i + 1..];
  }
}
