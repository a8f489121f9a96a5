/** The event-driven bounded buffer: one client, one server that saves what it cannot serve yet, and a
    helper that hands saved requests back to it. All sends are rendezvous. In each round the client
    asks to consume, then to produce, and then waits for the one reply. */
module EventRounds {
  import opened Scheduler
  import opened Continuations

  datatype Tag = Producer | Consumer | ProducerConti | ConsumerConti | Tmnt

  /** A message with its two message registers. */
  datatype Msg = Msg(tag: Tag, m0: int, m1: int)

  datatype ClientPc = SendConsumer(i: nat) | SendProducer(i: nat) | RecvReply(i: nat) | CallTmnt | Stopped

  /** `ToHelper` and `ToClient` are sends that wait for their partner, `Broken` a failed assertion. */
  datatype ServerPc =
    | Receiving
    | Handling(m: Msg)
    | ToHelper(tag: Tag, conti: int, order: (int, int), reply: bool)
    | ToClient
    | Broken

  datatype HelperPc = AtRecv | Handing(tag: Tag, conti: int)

  /** `base` is the wait count at the start. History variables: `asked` has every request the client has
      sent, `replies` counts the replies, and `impossible` notes whether the branch so named in the server
      was ever taken. */
  datatype State = State(
    rounds: nat,
    limit: nat,
    base: int,
    client: ClientPc,
    server: ServerPc,
    helper: HelperPc,
    buffer: int,
    producers: Ring,
    consumers: Ring,
    orders: seq<(int, int)>,
    waitCount: int,
    terminateNum: int,
    asked: seq<(int, int)>,
    replies: nat,
    impossible: bool)

  // ---------- The server's handling of one message ----------

  /** The request is logged and answered, or not. */
  function Logged(s: State, order: (int, int), reply: bool): State {
    s.(orders := s.orders + [order], server := if reply then ToClient else Receiving)
  }

  /** If a request of the other kind is waiting it is first handed to the helper. */
  function Finish(s: State, tag: Tag, conti: int, order: (int, int), reply: bool): State {
    if conti > -1 then s.(server := ToHelper(tag, conti, order, reply)) else Logged(s, order, reply)
  }

  function Produce(s: State, order: (int, int)): State
    requires s.consumers.WellFormed()
  {
    if s.buffer >= s.limit then s.(server := Broken)
    else
      var (conti, consumers) := Retrieve(s.consumers);
      Finish(s.(buffer := s.buffer + 1, consumers := consumers), ConsumerConti, conti, order, false)
  }

  function Consume(s: State, order: (int, int), reply: bool): State
    requires s.producers.WellFormed()
  {
    if s.buffer <= 0 then s.(server := Broken)
    else
      var (conti, producers) := Retrieve(s.producers);
      Finish(s.(buffer := s.buffer - 1, producers := producers), ProducerConti, conti, order, reply)
  }

  /** The request waits in the ring. */
  function SaveProducer(s: State, m: Msg): State
    requires s.producers.WellFormed()
  {
    match Save(s.producers, m.m0, m.m1)
    case Some(r) => s.(producers := r, waitCount := s.waitCount + 1, server := Receiving)
    case None => s.(server := Broken)
  }

  function SaveConsumer(s: State, m: Msg): State
    requires s.consumers.WellFormed()
  {
    match Save(s.consumers, m.m0, m.m1)
    case Some(r) => s.(consumers := r, waitCount := s.waitCount + 1, server := Receiving)
    case None => s.(server := Broken)
  }

  /** Up to the next receive or send. A saved producer that finds the buffer full again is dropped. */
  function Handle(s: State, m: Msg): State
    requires s.producers.WellFormed() && s.consumers.WellFormed()
  {
    match m.tag
    case Producer => if s.buffer == s.limit then SaveProducer(s, m) else Produce(s, (m.m0, m.m1))
    case ProducerConti =>
      if s.buffer == s.limit then s.(waitCount := s.waitCount + 1, server := Receiving)
      else (
        match Restore(s.producers, m.m0)
        case Some((order, r)) => Produce(s.(producers := r), order)
        case None => s.(server := Broken))
    case Consumer => if s.buffer == 0 then SaveConsumer(s, m) else Consume(s, (m.m0, m.m1), false)
    case ConsumerConti =>
      if s.buffer == 0 then SaveConsumer(s, m).(impossible := true)
      else (
        match Restore(s.consumers, m.m0)
        case Some((order, r)) => Consume(s.(consumers := r), order, true)
        case None => s.(server := Broken))
    case Tmnt => s.(terminateNum := s.terminateNum + 1, server := Receiving)
  }

  // ---------- Any request in any state ----------

  predicate Produces(tag: Tag) { tag == Producer || tag == ProducerConti }

  /** A full buffer stops a producer and an empty one a consumer. */
  predicate Stops(s: State, tag: Tag) { s.buffer == if Produces(tag) then s.limit else 0 }

  /** The ring of the requests of this kind, and that of the other. */
  function Own(s: State, tag: Tag): Ring { if Produces(tag) then s.producers else s.consumers }

  function Other(s: State, tag: Tag): Ring { if Produces(tag) then s.consumers else s.producers }

  function WithRings(s: State, tag: Tag, own: Ring, other: Ring): State {
    if Produces(tag) then s.(producers := own, consumers := other) else s.(consumers := own, producers := other)
  }

  ghost predicate Proper(s: State) {
    0 <= s.buffer <= s.limit && s.limit > 0 && s.producers.WellFormed() && s.consumers.WellFormed()
  }

  /** A request that is stopped goes to the end of its queue and is counted, if the ring has room; only a
      saved producer that is stopped again is dropped. */
  lemma StoppedWaits(s: State, m: Msg, f: Fifo)
    requires Proper(s) && Stops(s, m.tag) && m.tag != Tmnt && Represents(Own(s, m.tag), f)
    ensures
      var s' := Handle(s, m);
      var own := Own(s, m.tag);
      if m.tag == ProducerConti then s' == s.(waitCount := s.waitCount + 1, server := Receiving)
      else if Room(f, |own.slots|) then
        && Represents(Own(s', m.tag), Saved(f, m.m0, m.m1)) && s'.server == Receiving && s'.waitCount == s.waitCount + 1
        && s' == WithRings(s, m.tag, Own(s', m.tag), Other(s, m.tag))
                 .(waitCount := s'.waitCount, server := Receiving, impossible := s'.impossible)
        && s'.impossible == (s.impossible || m.tag == ConsumerConti)
      else s'.server == Broken
  {
    SaveExactly(Own(s, m.tag), f, m.m0, m.m1);
    hide Represents;
  }

  /** After a request is served one item has moved. The oldest request of the other kind, if one waits, is
      handed to the helper before `order` is logged and the client answered; else that happens at once. */
  ghost predicate Served(s: State, s': State, tag: Tag, other: Fifo, order: (int, int))
    requires Proper(s)
  {
    var reply := tag == ConsumerConti;
    && s'.buffer == (if Produces(tag) then s.buffer + 1 else s.buffer - 1) && s'.waitCount == s.waitCount
    && 0 <= s'.buffer <= s.limit && s'.impossible == s.impossible
    && if other.retrieved < |other.saved| then
         && s'.orders == s.orders
         && s'.server == ToHelper(if Produces(tag) then ConsumerConti else ProducerConti,
                                  other.retrieved % |Other(s, tag).slots|, order, reply)
         && (Represents(Other(s', tag), other.(retrieved := other.retrieved + 1)) <==>
             other.retrieved + 1 < |other.saved| || Room(other, |Other(s, tag).slots|))
       else
         && s'.orders == s.orders + [order] && s'.server == (if reply then ToClient else Receiving)
         && Other(s', tag) == Other(s, tag)
  }

  lemma ServesRequest(s: State, m: Msg, other: Fifo)
    requires Proper(s) && (m.tag == Producer || m.tag == Consumer) && !Stops(s, m.tag)
    requires Represents(Other(s, m.tag), other)
    ensures Served(s, Handle(s, m), m.tag, other, (m.m0, m.m1)) && Own(Handle(s, m), m.tag) == Own(s, m.tag)
  {
    RetrieveExactly(Other(s, m.tag), other);
    if other.retrieved < |other.saved| {
      SlotInRing(Other(s, m.tag), other);
    }
    hide Represents;
  }

  lemma SlotInRing(r: Ring, f: Fifo)
    requires Represents(r, f) && f.retrieved < |f.saved|
    ensures f.retrieved % |r.slots| > -1
  {
  }

  /** A request handed back is restored as it was saved and served; an assertion fails exactly if its slot
      holds nothing. */
  lemma ServesSaved(s: State, m: Msg, own: Fifo, other: Fifo, k: nat)
    requires Proper(s) && (m.tag == ProducerConti || m.tag == ConsumerConti) && !Stops(s, m.tag)
    requires Represents(Own(s, m.tag), own) && Represents(Other(s, m.tag), other)
    ensures (forall j | j in own.live :: j % |Own(s, m.tag).slots| != m.m0) ==> Handle(s, m).server == Broken
    ensures k in own.live && k < own.retrieved && m.m0 == k % |Own(s, m.tag).slots| ==>
              && Served(s, Handle(s, m), m.tag, other, own.saved[k])
              && Represents(Own(Handle(s, m), m.tag), own.(live := own.live - {k}))
  {
    RestoreExactly(Own(s, m.tag), own, m.m0);
    if k in own.live && k < own.retrieved && m.m0 == k % |Own(s, m.tag).slots| {
      RestoreGivesSaved(Own(s, m.tag), own, k);
    }
    RetrieveExactly(Other(s, m.tag), other);
    if other.retrieved < |other.saved| {
      SlotInRing(Other(s, m.tag), other);
    }
    hide Represents;
  }

  // ---------- Steps ----------

  datatype Event =
    | ClientSends(m1: int)
    | ServerWorks
    | ServerToHelper
    | HelperSends
    | ServerReplies

  ghost predicate Enabled(s: State, e: Event) {
    match e
    case ClientSends(_) => s.server == Receiving && !s.client.RecvReply? && s.client != Stopped
    case ServerWorks => s.server.Handling? && s.producers.WellFormed() && s.consumers.WellFormed()
    case ServerToHelper => s.server.ToHelper? && s.helper == AtRecv
    case HelperSends => s.helper.Handing? && s.server == Receiving
    case ServerReplies => s.server == ToClient && s.client.RecvReply?
  }

  function NextRound(s: State, i: nat): ClientPc {
    if i < s.rounds then SendConsumer(i) else CallTmnt
  }

  /** The client writes both of its counters to the first register, so the second holds whatever was
      there: `m1`. Its inner counter is always 0. */
  ghost function Step(s: State, e: Event): State
    requires Enabled(s, e)
  {
    match e
    case ClientSends(m1) =>
      (match s.client
       case SendConsumer(i) =>
         s.(server := Handling(Msg(Consumer, 0, m1)), client := SendProducer(i), asked := s.asked + [(0, m1)])
       case SendProducer(i) =>
         s.(server := Handling(Msg(Producer, 0, m1)), client := RecvReply(i), asked := s.asked + [(0, m1)])
       case _ => s.(server := Handling(Msg(Tmnt, 0, m1)), client := Stopped))
    case ServerWorks => Handle(s, s.server.m)
    case ServerToHelper =>
      Logged(s.(helper := Handing(s.server.tag, s.server.conti)), s.server.order, s.server.reply)
    case HelperSends => s.(server := Handling(Msg(s.helper.tag, s.helper.conti, 0)), helper := AtRecv)
    case ServerReplies =>
      s.(server := Receiving, client := NextRound(s, s.client.i + 1), replies := s.replies + 1)
  }

  // ---------- The invariant ----------

  /** What has become of the consumer request of the round under way. */
  datatype Fill = Idle | Pending | InFlight

  ghost function Requests(asked: seq<(int, int)>, n: nat): seq<(int, int)>
    requires 2 * n <= |asked| + 1
  {
    seq(n, i requires 0 <= i < n => asked[2 * i])
  }

  ghost function Queue(asked: seq<(int, int)>, n: nat, fill: Fill): Fifo
    requires 2 * n <= |asked| + 1 && (fill != Idle ==> 2 * n < |asked|)
  {
    match fill
    case Idle => Fifo(Requests(asked, n), n, {})
    case Pending => Fifo(Requests(asked, n + 1), n, {n})
    case InFlight => Fifo(Requests(asked, n + 1), n + 1, {n})
  }

  /** `n` rounds are over; this many requests of the next have been sent and logged. */
  ghost predicate Round(s: State, n: nat, fill: Fill, sent: nat, logged: nat) {
    && n <= s.rounds && |s.asked| == 2 * n + sent && |s.orders| == 2 * n + logged && (fill != Idle ==> sent > 0)
    && Represents(s.consumers, Queue(s.asked, n, fill)) && s.waitCount == s.base + n + if fill == Idle then 0 else 1
  }

  /** Every round logs its produce and then its consume request. */
  ghost predicate Logs(s: State) {
    forall k: nat | k < |s.orders| ::
      var a := if k % 2 == 0 then k + 1 else k - 1;
      a < |s.asked| && s.orders[k] == s.asked[a]
  }

  ghost predicate Settings(s: State) {
    && s.limit > 0 && s.consumers.WellFormed() && |s.consumers.slots| > 1
    && Represents(s.producers, Fifo([], 0, {})) && !s.impossible && Logs(s)
    && s.terminateNum == if s.client == Stopped && s.server == Receiving then 1 else 0
  }

  ghost predicate AtConsumer(s: State, i: nat) {
    && i < s.rounds && i == s.replies && s.helper == AtRecv && s.server == Receiving && s.buffer == 0
    && Round(s, i, Idle, 0, 0)
  }

  ghost predicate AtProducer(s: State, i: nat) {
    && i < s.rounds && i == s.replies && s.helper == AtRecv && s.buffer == 0
    && match s.server
       case Handling(m) => Round(s, i, Idle, 1, 0) && m == Msg(Consumer, s.asked[2 * i].0, s.asked[2 * i].1)
       case Receiving => Round(s, i, Pending, 1, 0)
       case _ => false
  }

  ghost predicate AtReply(s: State, i: nat) {
    && i < s.rounds && i == s.replies
    && match s.server
       case Handling(m) =>
         s.helper == AtRecv &&
         if m.tag == Producer then
           Round(s, i, Pending, 2, 0) && s.buffer == 0 && (m.m0, m.m1) == s.asked[2 * i + 1]
         else
           Round(s, i, InFlight, 2, 1) && s.buffer == 1 && m.tag == ConsumerConti && m.m0 == i % |s.consumers.slots|
       case ToHelper(tag, conti, order, reply) =>
         && Round(s, i, InFlight, 2, 0) && s.buffer == 1 && s.helper == AtRecv && !reply
         && tag == ConsumerConti && conti == i % |s.consumers.slots| && order == s.asked[2 * i + 1]
       case Receiving =>
         Round(s, i, InFlight, 2, 1) && s.buffer == 1 && s.helper == Handing(ConsumerConti, i % |s.consumers.slots|)
       case ToClient => s.helper == AtRecv && s.buffer == 0 && Round(s, i + 1, Idle, 0, 0)
       case _ => false
  }

  ghost predicate AtEnd(s: State) {
    && s.replies == s.rounds && s.helper == AtRecv && s.buffer == 0 && Round(s, s.rounds, Idle, 0, 0)
    && (s.server == Receiving || (s.client == Stopped && s.server.Handling? && s.server.m.tag == Tmnt))
  }

  ghost predicate Inv(s: State) {
    && Settings(s)
    && match s.client
       case SendConsumer(i) => AtConsumer(s, i)
       case SendProducer(i) => AtProducer(s, i)
       case RecvReply(i) => AtReply(s, i)
       case _ => AtEnd(s)
  }

  // ---------- Every step keeps it ----------

  lemma SameQueue(a: seq<(int, int)>, b: seq<(int, int)>, n: nat, fill: Fill)
    requires a <= b && 2 * n <= |a| + 1 && (fill != Idle ==> 2 * n < |a|)
    ensures Queue(b, n, fill) == Queue(a, n, fill)
  {
    assert Requests(b, n) == Requests(a, n);
    if fill != Idle {
      assert Requests(b, n + 1) == Requests(a, n + 1);
    }
  }

  lemma ClientKeeps(s: State, m1: int)
    requires Inv(s) && Enabled(s, ClientSends(m1))
    ensures Inv(Step(s, ClientSends(m1)))
  {
    hide Represents, Queue;
    match s.client
    case SendConsumer(i) => SameQueue(s.asked, s.asked + [(0, m1)], i, Idle);
    case SendProducer(i) => SameQueue(s.asked, s.asked + [(0, m1)], i, Pending);
    case _ =>
  }

  /** A consume request always finds the buffer empty and is saved. */
  lemma ConsumerKeeps(s: State)
    requires Inv(s) && s.client.SendProducer? && s.server.Handling?
    ensures Inv(Step(s, ServerWorks))
  {
    var i := s.client.i;
    var f := Queue(s.asked, i, Idle);
    SaveExactly(s.consumers, f, s.asked[2 * i].0, s.asked[2 * i].1);
    assert Saved(f, s.asked[2 * i].0, s.asked[2 * i].1) == Queue(s.asked, i, Pending);
    hide Represents;
  }

  lemma NobodyProduces(s: State)
    requires Settings(s)
    ensures s.producers.WellFormed() && Retrieve(s.producers) == (-1, s.producers)
  {
  }

  /** The produce request takes the saved consume request out of the ring. */
  lemma ProducerKeeps(s: State)
    requires Inv(s) && s.client.RecvReply? && s.server.Handling? && s.server.m.tag == Producer
    ensures Inv(Step(s, ServerWorks))
  {
    var i := s.client.i;
    RetrieveExactly(s.consumers, Queue(s.asked, i, Pending));
    hide Represents;
    assert Queue(s.asked, i, Pending).(retrieved := i + 1) == Queue(s.asked, i, InFlight);
  }

  /** The request handed back is restored as it was sent, and answered. */
  lemma ContiKeeps(s: State)
    requires Inv(s) && s.client.RecvReply? && s.server.Handling? && s.server.m.tag != Producer
    ensures Inv(Step(s, ServerWorks)) && Step(s, ServerWorks).server == ToClient
  {
    var i := s.client.i;
    var f := Queue(s.asked, i, InFlight);
    RestoreGivesSaved(s.consumers, f, i);
    NobodyProduces(s);
    hide Represents;
    assert f.(live := f.live - {i}) == Queue(s.asked, i + 1, Idle);
    assert f.saved[i] == s.asked[2 * i];
    LogOne(s, s.asked[2 * i]);
  }

  lemma LogOne(s: State, order: (int, int))
    requires Logs(s)
    requires
      var k := |s.orders|;
      var a := if k % 2 == 0 then k + 1 else k - 1;
      0 <= a < |s.asked| && order == s.asked[a]
    ensures Logs(s.(orders := s.orders + [order]))
  {
    var orders := s.orders + [order];
    forall k: nat | k < |orders|
      ensures var a := if k % 2 == 0 then k + 1 else k - 1; a < |s.asked| && orders[k] == s.asked[a]
    {
      assert k < |s.orders| ==> orders[k] == s.orders[k];
    }
  }

  lemma WorkKeeps(s: State)
    requires Inv(s) && Enabled(s, ServerWorks)
    ensures Inv(Step(s, ServerWorks))
  {
    match s.client
    case SendProducer(i) => ConsumerKeeps(s);
    case RecvReply(i) => if s.server.m.tag == Producer { ProducerKeeps(s); } else { ContiKeeps(s); }
    case _ =>
  }

  lemma HandOverKeeps(s: State)
    requires Inv(s) && Enabled(s, ServerToHelper)
    ensures Inv(Step(s, ServerToHelper))
  {
    hide Represents, Queue;
    LogOne(s, s.server.order);
  }

  lemma StepKeeps(s: State, e: Event)
    requires Inv(s) && Enabled(s, e)
    ensures Inv(Step(s, e))
  {
    match e
    case ClientSends(m1) => ClientKeeps(s, m1);
    case ServerWorks => WorkKeeps(s);
    case ServerToHelper => HandOverKeeps(s);
    case HelperSends => hide Represents, Queue;
    case ServerReplies => hide Represents, Queue;
  }

  // ---------- Rounds ----------

  /** Each reply ends a round with the buffer and both rings empty, and with the round's two requests
      logged, the produce request first. */
  lemma RoundEnds(s: State)
    requires Inv(s) && Enabled(s, ServerReplies)
    ensures
      var s' := Step(s, ServerReplies);
      var n := s'.replies;
      && n == s.replies + 1 && s'.buffer == 0 && |s'.asked| == |s'.orders| == 2 * n
      && s'.consumers.start == -1 && s'.producers.start == -1
      && (forall c | c in s'.consumers.slots + s'.producers.slots :: !c.occupied)
      && s'.orders[2 * n - 2] == s'.asked[2 * n - 1] && s'.orders[2 * n - 1] == s'.asked[2 * n - 2]
  {
    AllFree(s.consumers, Queue(s.asked, s.client.i + 1, Idle));
    AllFree(s.producers, Fifo([], 0, {}));
    hide Represents;
    assert Logs(s);
  }

  lemma AllFree(r: Ring, f: Fifo)
    requires Represents(r, f) && f.live == {}
    ensures r.start == -1 && forall c | c in r.slots :: !c.occupied
  {
    forall i: nat | i < |r.slots| ensures !r.slots[i].occupied {
      RestoreExactly(r, f, i);
    }
    assert f.retrieved < |f.saved| ==> f.retrieved in f.live;
  }

  /** The branch the server's author calls impossible is, and no assertion of the server ever fails. */
  lemma NeverImpossible(s: State)
    requires Inv(s)
    ensures !s.impossible && s.server != Broken
    ensures s.server.Handling? && s.server.m.tag == ConsumerConti ==> s.buffer > 0
  {
  }

  /** How many steps lead from the start to this point of the protocol. */
  ghost function Progress(s: State): int {
    match s.client
    case SendConsumer(i) => 8 * i
    case SendProducer(i) => 8 * i + if s.server.Handling? then 1 else 2
    case RecvReply(i) =>
      (match s.server
       case Handling(m) => 8 * i + if m.tag == Producer then 3 else 6
       case ToHelper(_, _, _, _) => 8 * i + 4
       case Receiving => 8 * i + 5
       case _ => 8 * i + 7)
    case CallTmnt => 8 * s.rounds
    case Stopped => 8 * s.rounds + if s.server.Handling? then 1 else 2
  }

  lemma WorkProgress(s: State)
    requires Inv(s) && Enabled(s, ServerWorks)
    ensures Progress(Step(s, ServerWorks)) == Progress(s) + 1
  {
    match s.client
    case SendProducer(i) =>
      SaveExactly(s.consumers, Queue(s.asked, i, Idle), s.server.m.m0, s.server.m.m1);
      hide Represents, Queue;
    case RecvReply(i) =>
      if s.server.m.tag == Producer {
        RetrieveExactly(s.consumers, Queue(s.asked, i, Pending));
        hide Represents, Queue;
      } else {
        ContiKeeps(s);
        hide Represents, Queue;
      }
    case _ =>
  }

  /** Every step is one step forward, and only the end has none. */
  lemma StepProgress(s: State, e: Event)
    requires Inv(s) && Enabled(s, e)
    ensures Progress(Step(s, e)) == Progress(s) + 1
  {
    hide Represents, Queue;
    match e
    case ServerWorks => WorkProgress(s);
    case _ =>
  }

  lemma SettingsFixed(s: State, e: Event)
    requires Enabled(s, e)
    ensures Step(s, e).rounds == s.rounds && Step(s, e).base == s.base
  {
  }

  lemma NoDeadlock(s: State)
    requires Inv(s) && forall e :: !Enabled(s, e)
    ensures s.client == Stopped && s.server == Receiving && s.replies == s.rounds
  {
    hide Represents, Queue;
    assert !Enabled(s, ClientSends(0)) && !Enabled(s, ServerWorks) && !Enabled(s, ServerToHelper);
    assert !Enabled(s, HelperSends) && !Enabled(s, ServerReplies);
    WellFormedRings(s);
  }

  lemma WellFormedRings(s: State)
    requires Settings(s)
    ensures s.producers.WellFormed() && s.consumers.WellFormed()
  {
  }

  // ---------- Runs ----------

  ghost predicate CanRun(s: State, es: seq<Event>)
    decreases |es|
  {
    es == [] || (Enabled(s, es[0]) && CanRun(Step(s, es[0]), es[1..]))
  }

  ghost function After(s: State, es: seq<Event>): State
    requires CanRun(s, es)
    decreases |es|
  {
    if es == [] then s else After(Step(s, es[0]), es[1..])
  }

  lemma {:induction false} RunKeeps(s: State, es: seq<Event>)
    requires Inv(s) && CanRun(s, es)
    ensures Inv(After(s, es)) && Progress(After(s, es)) == Progress(s) + |es|
    ensures After(s, es).rounds == s.rounds && After(s, es).base == s.base
    decreases |es|
  {
    hide Inv, Step, Progress;
    if es != [] {
      StepKeeps(s, es[0]);
      StepProgress(s, es[0]);
      SettingsFixed(s, es[0]);
      RunKeeps(Step(s, es[0]), es[1..]);
    }
  }

  function Start(rounds: nat, limit: nat, base: int, maxConti: nat): State {
    State(rounds, limit, base, if rounds > 0 then SendConsumer(0) else CallTmnt, Receiving, AtRecv, 0,
          Empty(maxConti), Empty(maxConti), [], base, 0, [], 0, false)
  }

  lemma StartKeeps(rounds: nat, limit: nat, base: int, maxConti: nat)
    requires limit > 0 && maxConti > 1
    ensures Inv(Start(rounds, limit, base, maxConti))
  {
    EmptyRepresents(maxConti);
    hide Represents;
    assert Requests([], 0) == [];
  }

  /** For any number of rounds, any buffer and any rings of at least two slots: no run takes the
      impossible branch or fails an assertion, and one that cannot go on has taken eight steps for
      each round and two for the end, has had every round answered and one wait counted for each. */
  lemma Rounds(rounds: nat, limit: nat, base: int, maxConti: nat, es: seq<Event>)
    requires limit > 0 && maxConti > 1 && CanRun(Start(rounds, limit, base, maxConti), es)
    ensures
      var s := After(Start(rounds, limit, base, maxConti), es);
      && Inv(s) && !s.impossible && s.server != Broken && |es| <= 8 * rounds + 2
      && ((forall e :: !Enabled(s, e)) <==> |es| == 8 * rounds + 2)
      && (|es| == 8 * rounds + 2 ==>
            s.client == Stopped && s.replies == rounds && s.terminateNum == 1 && s.waitCount == base + rounds)
  {
    StartKeeps(rounds, limit, base, maxConti);
    RunKeeps(Start(rounds, limit, base, maxConti), es);
    var s := After(Start(rounds, limit, base, maxConti), es);
    NeverImpossible(s);
    if forall e :: !Enabled(s, e) {
      NoDeadlock(s);
    }
    AtTheEnd(s);
    hide Represents, Queue, Step;
  }

  lemma AtTheEnd(s: State)
    requires Inv(s)
    ensures Progress(s) <= 8 * s.rounds + 2
    ensures Progress(s) == 8 * s.rounds + 2 ==>
              s.client == Stopped && s.replies == s.rounds && s.terminateNum == 1 && s.waitCount == s.base + s.rounds
              && forall e :: !Enabled(s, e)
    ensures s.client == Stopped && s.server == Receiving ==> Progress(s) == 8 * s.rounds + 2
  {
    hide Represents, Queue;
  }
}
