/** The registration barrier: clients introduce themselves, and only when all have done so is each told
    its number. */
module Registration {
  import opened Sequences

  /** A saved caller: whoever is waiting for the reply to a call. */
  type Caller = nat

  datatype Reply = Reply(to: Caller, id: nat)

  const CLIENT_MAX := 10000

  /** Who has registered, in order of arrival, and the replies sent, out of `num` clients expected. */
  datatype Barrier = Barrier(num: nat, callers: seq<Caller>, sent: seq<Reply>)

  function Replies(callers: seq<Caller>): seq<Reply> {
    seq(|callers|, i requires 0 <= i < |callers| => Reply(callers[i], i))
  }

  function Init(b: Barrier, c: Caller): Barrier {
    var callers := b.callers + [c];
    b.(callers := callers, sent := b.sent + if |callers| == b.num then Replies(callers) else [])
  }

  ghost function InitAll(b: Barrier, callers: seq<Caller>): Barrier
    decreases |callers|
  {
    if callers == [] then b else Init(InitAll(b, callers[..|callers| - 1]), callers[|callers| - 1])
  }

  /** However many clients come: no reply goes out before all that are expected have registered, and
      from then on the replies sent are one to each of these, with its number. */
  lemma {:induction false} NoReplyBeforeAll(num: nat, callers: seq<Caller>)
    ensures
      var b := InitAll(Barrier(num, [], []), callers);
      && b.num == num && b.callers == callers
      && b.sent == if |callers| < num then [] else Replies(callers[..num])
    decreases |callers|
  {
    hide InitAll, Replies;
    if callers == [] {
      NoneYet(Barrier(num, [], []));
      assert callers[..0] == [];
    } else {
      var n := |callers| - 1;
      var before := callers[..n];
      NoReplyBeforeAll(num, before);
      OneMore(Barrier(num, [], []), before, callers[n]);
      assert before + [callers[n]] == callers;
      if |callers| == num {
        assert callers[..num] == callers;
      } else if num <= n {
        assert before[..num] == callers[..num];
      }
    }
  }

  lemma NoneYet(b: Barrier)
    ensures InitAll(b, []) == b && Replies([]) == []
  {
  }

  lemma OneMore(b: Barrier, callers: seq<Caller>, c: Caller)
    ensures InitAll(b, callers + [c]) == Init(InitAll(b, callers), c)
  {
    var all := callers + [c];
    assert |all| > 0 && all[..|all| - 1] == callers && all[|all| - 1] == c;
  }

  /** Different clients get different numbers, and nobody gets two replies. */
  lemma OneReplyEach(num: nat, callers: seq<Caller>, i: nat)
    requires i < num <= |callers| && NoDup(callers)
    ensures
      var sent := InitAll(Barrier(num, [], []), callers).sent;
      && |sent| == num && sent[i] == Reply(callers[i], i)
      && forall k | 0 <= k < num && (sent[k].to == callers[i] || sent[k].id == i) :: k == i
  {
    NoReplyBeforeAll(num, callers);
  }

  // ---------- In place ----------

  /** `sent` stands for the kernel's sends. */
  class Registry {
    var clientNew: nat
    const clientNum: nat
    const replyEps: array<Caller>
    var sent: seq<Reply>

    ghost predicate Valid()
      reads this
    {
      clientNew <= replyEps.Length
    }

    ghost function Model(): Barrier
      requires Valid()
      reads this, replyEps
    {
      Barrier(clientNum, replyEps[..clientNew], sent)
    }

    constructor (num: nat)
      ensures Valid() && fresh(replyEps) && replyEps.Length == CLIENT_MAX && Model() == Barrier(num, [], [])
    {
      clientNew := 0;
      clientNum := num;
      replyEps := new Caller[CLIENT_MAX];
      sent := [];
    }

    method InitialClient() returns (id: nat)
      modifies this`clientNew
      ensures id == old(clientNew) && clientNew == id + 1
    {
      id := clientNew;
      clientNew := clientNew + 1;
    }

    predicate ClientBarrier()
      reads this
    {
      clientNum == clientNew
    }

    method HandleInit(caller: Caller)
      requires Valid() && clientNew < replyEps.Length
      modifies this, replyEps
      ensures Valid() && Model() == Init(old(Model()), caller)
    {
      var id := InitialClient();
      replyEps[id] := caller;
      assert replyEps[..clientNew] == old(replyEps[..clientNew]) + [caller];
      if ClientBarrier() {
        sent := sent + [Reply(replyEps[0], 0)];
        Multicast();
      }
    }

    /** The replies to all clients but the first. */
    method Multicast()
      requires Valid() && clientNew == clientNum > 0
      requires sent != [] && sent[|sent| - 1] == Reply(replyEps[0], 0)
      modifies this`sent
      ensures sent == old(sent)[..|old(sent)| - 1] + Replies(replyEps[..clientNum])
    {
      ghost var before := sent[..|sent| - 1];
      assert sent == before + Replies(replyEps[..clientNum])[..1];
      var i := 1;
      while i < clientNum
        invariant 1 <= i <= clientNum && sent == before + Replies(replyEps[..clientNum])[..i]
      {
        sent := sent + [Reply(replyEps[i], i)];
        i := i + 1;
      }
      assert Replies(replyEps[..clientNum])[..i] == Replies(replyEps[..clientNum]);
    }
  }
}
