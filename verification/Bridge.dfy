/** The bridge's channel buffers and its fan-out to subscribers. Each channel's
    ring is held here by its contents (the module Buffers has the ring itself), and each
    subscriber's Go channel by what it has ever accepted and how much was taken. */
module Bridge {
  import opened Seqs

  const SUBSCRIBER_QUEUE := 64

  datatype Message = Message(channel: string, nick: string, text: string)

  datatype Queue = Queue(accepted: seq<Message>, taken: nat)

  datatype State = State(
    buffers: map<string, seq<Message>>,
    subs: map<string, set<nat>>,
    joined: set<string>,
    queues: map<nat, Queue>,
    subSeq: nat)

  datatype Op =
    | JoinChannel(channel: string)
    | ConfirmJoin(channel: string)        // the bridge sees its own JOIN
    | LeaveChannel(channel: string)
    | Subscribe(channel: string)
    | Unsubscribe(channel: string, id: nat)
    | Dispatch(msg: Message)
    | Take(id: nat)                       // the subscriber reads one message

  predicate Full(q: Queue) { |q.accepted| >= q.taken + SUBSCRIBER_QUEUE }

  /** A non-blocking send: a full queue drops the message. */
  function Send(q: Queue, m: Message): Queue {
    if Full(q) then q else q.(accepted := q.accepted + [m])
  }

  function TakeOne(q: Queue): Queue {
    if q.taken < |q.accepted| then q.(taken := q.taken + 1) else q
  }

  function Subscribers(s: State, channel: string): set<nat> {
    if channel in s.subs then s.subs[channel] else {}
  }

  predicate Subscribed(s: State, channel: string, id: nat) { id in Subscribers(s, channel) }

  /** A new buffer for a channel that has none; its subscriber table starts over. */
  function Opened(s: State, channel: string): State {
    if channel in s.buffers then s
    else s.(buffers := s.buffers[channel := []], subs := s.subs[channel := {}])
  }

  function Apply(bufSize: nat, s: State, op: Op): State {
    match op
    case JoinChannel(ch) => Opened(s, ch)
    case ConfirmJoin(ch) => if ch in s.joined then s else Opened(s, ch).(joined := s.joined + {ch})
    case LeaveChannel(ch) => s.(joined := s.joined - {ch}, buffers := s.buffers - {ch}, subs := s.subs - {ch})
    case Subscribe(ch) =>
      var id := s.subSeq + 1;
      s.(subSeq := id, subs := s.subs[ch := Subscribers(s, ch) + {id}], queues := s.queues[id := Queue([], 0)])
    case Unsubscribe(ch, id) =>
      if ch in s.subs then s.(subs := s.subs[ch := s.subs[ch] - {id}]) else s
    case Dispatch(m) =>
      if m.channel !in s.buffers then s
      else
        s.(buffers := s.buffers[m.channel := LastN(s.buffers[m.channel] + [m], bufSize)],
           queues := map id: nat | id in s.queues ::
             if id in Subscribers(s, m.channel) then Send(s.queues[id], m) else s.queues[id])
    case Take(id) =>
      if id in s.queues then s.(queues := s.queues[id := TakeOne(s.queues[id])]) else s
  }

  const START := State(map[], map[], {}, map[], 0)

  function Run(bufSize: nat, ops: seq<Op>): State {
    if ops == [] then START else Apply(bufSize, Run(bufSize, ops[..|ops| - 1]), ops[|ops| - 1])
  }

  // ----- The code -----

  class Bot {
    const bufSize: nat
    var buffers: map<string, seq<Message>>
    var subs: map<string, set<nat>>
    var joined: set<string>
    var queues: map<nat, Queue>
    var subSeq: nat

    constructor (bufSize: nat)
      requires bufSize > 0
      ensures this.bufSize == bufSize && Abs() == START
    {
      this.bufSize := bufSize;
      buffers, subs, joined, queues, subSeq := map[], map[], {}, map[], 0;
    }

    ghost function Abs(): State
      reads this
    {
      State(buffers, subs, joined, queues, subSeq)
    }

    method Join(channel: string)
      modifies this
      ensures Abs() == Apply(bufSize, old(Abs()), JoinChannel(channel))
    {
      if channel !in buffers {
        buffers := buffers[channel := []];
        subs := subs[channel := {}];
      }
    }

    method OnOwnJoin(channel: string)
      modifies this
      ensures Abs() == Apply(bufSize, old(Abs()), ConfirmJoin(channel))
    {
      if channel !in joined {
        joined := joined + {channel};
        if channel !in buffers {
          buffers := buffers[channel := []];
          subs := subs[channel := {}];
        }
      }
    }

    method Leave(channel: string)
      modifies this
      ensures Abs() == Apply(bufSize, old(Abs()), LeaveChannel(channel))
    {
      joined := joined - {channel};
      buffers := buffers - {channel};
      subs := subs - {channel};
    }

    method AddSubscriber(channel: string) returns (id: nat)
      modifies this
      ensures id == old(subSeq) + 1
      ensures Abs() == Apply(bufSize, old(Abs()), Subscribe(channel))
    {
      subSeq := subSeq + 1;
      id := subSeq;
      queues := queues[id := Queue([], 0)];
      if channel !in subs {
        subs := subs[channel := {}];
      }
      subs := subs[channel := subs[channel] + {id}];
    }

    method RemoveSubscriber(channel: string, id: nat)
      modifies this
      ensures Abs() == Apply(bufSize, old(Abs()), Unsubscribe(channel, id))
    {
      if channel in subs {
        subs := subs[channel := subs[channel] - {id}];
      }
    }

    /** Nothing for an unknown channel, otherwise its last messages, oldest first. */
    method Messages(channel: string) returns (out: seq<Message>)
      ensures out == if channel in buffers then buffers[channel] else []
    {
      if channel !in buffers {
        return [];
      }
      return buffers[channel];
    }

    /** Pushes to the buffer and offers the message to every subscriber, in
        whatever order the table yields them. */
    method OnMessage(msg: Message)
      requires Subscribers(Abs(), msg.channel) <= queues.Keys
      modifies this
      ensures Abs() == Apply(bufSize, old(Abs()), Dispatch(msg))
    {
      if msg.channel !in buffers {
        return;
      }
      var pushed := buffers[msg.channel] + [msg];
      buffers := buffers[msg.channel := if |pushed| > bufSize then pushed[|pushed| - bufSize..] else pushed];
      var todo := if msg.channel in subs then subs[msg.channel] else {};
      ghost var all := todo;
      ghost var before := queues;
      while todo != {}
        invariant todo <= all
        invariant queues.Keys == before.Keys
        invariant forall id: nat | id in before ::
                    queues[id] == if id in all - todo then Send(before[id], msg) else before[id]
        invariant buffers == Apply(bufSize, old(Abs()), Dispatch(msg)).buffers
        invariant subs == old(subs) && joined == old(joined) && subSeq == old(subSeq)
      {
        var id :| id in todo;
        todo := todo - {id};
        if |queues[id].accepted| < queues[id].taken + SUBSCRIBER_QUEUE {
          queues := queues[id := queues[id].(accepted := queues[id].accepted + [msg])];
        }
      }
      assert queues == Apply(bufSize, old(Abs()), Dispatch(msg)).queues;
    }
  }

  // ----- What a run means -----

  /** The channel has a buffer: joined since it was last left. */
  predicate Buffered(ops: seq<Op>, channel: string) {
    if ops == [] then false
    else
      var op := ops[|ops| - 1];
      if op == JoinChannel(channel) || op == ConfirmJoin(channel) then true
      else if op == LeaveChannel(channel) then false
      else Buffered(ops[..|ops| - 1], channel)
  }

  /** The messages dispatched to the channel since its buffer was created. */
  function SinceCreated(ops: seq<Op>, channel: string): seq<Message> {
    if ops == [] then []
    else
      var before := SinceCreated(ops[..|ops| - 1], channel);
      var op := ops[|ops| - 1];
      if op == LeaveChannel(channel) then []
      else if op.Dispatch? && op.msg.channel == channel && Buffered(ops[..|ops| - 1], channel) then before + [op.msg]
      else before
  }

  /** What one subscription is entitled to: whether it is still served, what it has
      accepted, and how much was taken. */
  datatype Service = Service(served: bool, queue: Queue)

  function ServiceStep(channel: string, id: nat, v: Service, op: Op): Service {
    match op
    case LeaveChannel(ch) => if ch == channel then v.(served := false) else v
    case Unsubscribe(ch, who) => if ch == channel && who == id then v.(served := false) else v
    case Dispatch(m) => if m.channel == channel && v.served then v.(queue := Send(v.queue, m)) else v
    case Take(who) => if who == id then v.(queue := TakeOne(v.queue)) else v
    case _ => v
  }

  /** The subscription made by ops[p], followed through the first n operations. It
      is served from the start exactly when its channel had a buffer by then. */
  function ServiceAt(ops: seq<Op>, p: nat, id: nat, n: nat): Service
    requires p < n <= |ops| && ops[p].Subscribe?
    decreases n
  {
    if n == p + 1 then Service(Buffered(ops[..p], ops[p].channel), Queue([], 0))
    else ServiceStep(ops[p].channel, id, ServiceAt(ops, p, id, n - 1), ops[n - 1])
  }

  ghost predicate Sound(s: State) {
    && (forall ch | ch in s.joined :: ch in s.buffers)
    && (forall ch | ch in s.buffers :: ch in s.subs)
    && (forall ch, id: nat :: Subscribed(s, ch, id) ==> id in s.queues && id <= s.subSeq)
    && (forall a, b, id: nat :: Subscribed(s, a, id) && Subscribed(s, b, id) ==> a == b)
  }

  /** Who is subscribed where after a step: whoever was, the newcomer, nobody else. */
  lemma SubscribedBefore(bufSize: nat, s: State, op: Op, ch: string, id: nat)
    requires Subscribed(Apply(bufSize, s, op), ch, id)
    ensures Subscribed(s, ch, id) || (op == Subscribe(ch) && id == s.subSeq + 1)
  {}

  lemma ApplyKeepsSound(bufSize: nat, s: State, op: Op)
    requires Sound(s)
    ensures Sound(Apply(bufSize, s, op))
  {
    var s' := Apply(bufSize, s, op);
    forall ch, id: nat | Subscribed(s', ch, id)
      ensures id in s'.queues && id <= s'.subSeq
      ensures forall other :: Subscribed(s', other, id) ==> other == ch
    {
      SubscribedBefore(bufSize, s, op, ch, id);
      forall other | Subscribed(s', other, id)
        ensures other == ch
      {
        SubscribedBefore(bufSize, s, op, other, id);
      }
    }
  }

  lemma {:induction false} RunSound(bufSize: nat, ops: seq<Op>)
    ensures Sound(Run(bufSize, ops))
    ensures forall ch :: ch in Run(bufSize, ops).buffers <==> Buffered(ops, ch)
  {
    if ops != [] {
      RunSound(bufSize, ops[..|ops| - 1]);
      ApplyKeepsSound(bufSize, Run(bufSize, ops[..|ops| - 1]), ops[|ops| - 1]);
    }
  }

  /** After any run, Messages holds the last bufSize messages dispatched to the
      channel since its buffer was created, in order. */
  lemma {:induction false} MessagesAreTheLast(bufSize: nat, ops: seq<Op>, channel: string)
    ensures channel in Run(bufSize, ops).buffers <==> Buffered(ops, channel)
    ensures Buffered(ops, channel) ==> Run(bufSize, ops).buffers[channel] == LastN(SinceCreated(ops, channel), bufSize)
    ensures !Buffered(ops, channel) ==> SinceCreated(ops, channel) == []
  {
    if ops != [] {
      var init, op := ops[..|ops| - 1], ops[|ops| - 1];
      MessagesAreTheLast(bufSize, init, channel);
      RunSound(bufSize, init);
      if op.Dispatch? && op.msg.channel == channel && Buffered(init, channel) {
        LastNAppend(SinceCreated(init, channel), op.msg, bufSize);
      }
    }
  }

  /** The bridge's tables agree with the subscription's entitlement. */
  ghost predicate Matches(s: State, channel: string, id: nat, v: Service) {
    && id in s.queues && s.queues[id] == v.queue && id <= s.subSeq
    && (v.served <==> channel in s.buffers && Subscribed(s, channel, id))
    && (forall ch :: Subscribed(s, ch, id) ==> ch == channel)
  }

  lemma ApplyKeepsMatch(bufSize: nat, s: State, op: Op, channel: string, id: nat, v: Service)
    requires Sound(s) && Matches(s, channel, id, v)
    ensures Matches(Apply(bufSize, s, op), channel, id, ServiceStep(channel, id, v, op))
  {
    forall ch | Subscribed(Apply(bufSize, s, op), ch, id)
      ensures ch == channel
    {
      SubscribedBefore(bufSize, s, op, ch, id);
    }
    if op.Dispatch? && op.msg.channel in s.buffers && Subscribed(s, op.msg.channel, id) {
      assert op.msg.channel == channel;
    }
  }

  lemma SubscribeMatches(bufSize: nat, s: State, channel: string)
    requires Sound(s)
    ensures Matches(Apply(bufSize, s, Subscribe(channel)), channel, s.subSeq + 1,
                    Service(channel in s.buffers, Queue([], 0)))
  {
    var id := s.subSeq + 1;
    forall ch | Subscribed(Apply(bufSize, s, Subscribe(channel)), ch, id)
      ensures ch == channel
    {
      SubscribedBefore(bufSize, s, Subscribe(channel), ch, id);
    }
    assert Subscribed(Apply(bufSize, s, Subscribe(channel)), channel, id);
  }

  function IdOf(bufSize: nat, ops: seq<Op>, p: nat): nat
    requires p < |ops|
  {
    Run(bufSize, ops[..p]).subSeq + 1
  }

  lemma {:induction false} SubscriptionFollowed(bufSize: nat, ops: seq<Op>, p: nat, n: nat)
    requires p < n <= |ops| && ops[p].Subscribe?
    ensures Matches(Run(bufSize, ops[..n]), ops[p].channel, IdOf(bufSize, ops, p),
                    ServiceAt(ops, p, IdOf(bufSize, ops, p), n))
    decreases n
  {
    assert ops[..n][..n - 1] == ops[..n - 1];
    RunSound(bufSize, ops[..n - 1]);
    assert Run(bufSize, ops[..n]) == Apply(bufSize, Run(bufSize, ops[..n - 1]), ops[n - 1]);
    hide Run, Apply, Matches, Sound, Buffered;
    if n > p + 1 {
      SubscriptionFollowed(bufSize, ops, p, n - 1);
      ApplyKeepsMatch(bufSize, Run(bufSize, ops[..n - 1]), ops[n - 1], ops[p].channel, IdOf(bufSize, ops, p),
                      ServiceAt(ops, p, IdOf(bufSize, ops, p), n - 1));
    } else {
      SubscribeMatches(bufSize, Run(bufSize, ops[..p]), ops[p].channel);
    }
  }

  /** Over any run, a subscriber accepts exactly the messages dispatched to its
      channel, in order, while it is served and its queue has room. It is served
      until the channel is left or it unsubscribes, provided the channel had a
      buffer when it subscribed. */
  lemma SubscriberReceivesExactly(bufSize: nat, ops: seq<Op>, p: nat)
    requires p < |ops| && ops[p].Subscribe?
    ensures
      var id := IdOf(bufSize, ops, p);
      id in Run(bufSize, ops).queues
      && Run(bufSize, ops).queues[id] == ServiceAt(ops, p, id, |ops|).queue
  {
    SubscriptionFollowed(bufSize, ops, p, |ops|);
    assert ops[..|ops|] == ops;
  }

  lemma {:induction false} UnservedStaysEmpty(ops: seq<Op>, p: nat, id: nat, n: nat)
    requires p < n <= |ops| && ops[p].Subscribe? && !Buffered(ops[..p], ops[p].channel)
    ensures ServiceAt(ops, p, id, n) == Service(false, Queue([], 0))
    decreases n
  {
    if n > p + 1 {
      UnservedStaysEmpty(ops, p, id, n - 1);
    }
  }

  /** A subscription made before the channel has a buffer never receives anything:
      until the channel is joined nothing is fanned out, and the join replaces the
      subscriber table. */
  lemma EarlySubscriberIsLost(bufSize: nat, ops: seq<Op>, p: nat)
    requires p < |ops| && ops[p].Subscribe? && !Buffered(ops[..p], ops[p].channel)
    ensures
      var id := IdOf(bufSize, ops, p);
      id in Run(bufSize, ops).queues && Run(bufSize, ops).queues[id].accepted == []
  {
    SubscriberReceivesExactly(bufSize, ops, p);
    UnservedStaysEmpty(ops, p, IdOf(bufSize, ops, p), |ops|);
  }

  /** The messages dispatched to the subscriber's channel after ops[p]. */
  function DispatchedAfter(ops: seq<Op>, p: nat, n: nat): seq<Message>
    requires p < n <= |ops| && ops[p].Subscribe?
    decreases n
  {
    if n == p + 1 then []
    else
      DispatchedAfter(ops, p, n - 1)
      + (if ops[n - 1].Dispatch? && ops[n - 1].msg.channel == ops[p].channel then [ops[n - 1].msg] else [])
  }

  lemma ServiceAccepts(channel: string, id: nat, v: Service, op: Op)
    ensures
      var after := ServiceStep(channel, id, v, op).queue.accepted;
      after == v.queue.accepted
      || (op.Dispatch? && op.msg.channel == channel && after == v.queue.accepted + [op.msg])
  {}

  /** What a subscriber accepts is, in order, some of what its channel was sent. */
  lemma {:induction false} AcceptedInOrder(ops: seq<Op>, p: nat, id: nat, n: nat)
    requires p < n <= |ops| && ops[p].Subscribe?
    ensures Subsequence(ServiceAt(ops, p, id, n).queue.accepted, DispatchedAfter(ops, p, n))
    decreases n
  {
    if n > p + 1 {
      AcceptedInOrder(ops, p, id, n - 1);
      var v := ServiceAt(ops, p, id, n - 1);
      var sent := DispatchedAfter(ops, p, n - 1);
      ServiceAccepts(ops[p].channel, id, v, ops[n - 1]);
      if ops[n - 1].Dispatch? {
        SubsequenceExtend(v.queue.accepted, sent, ops[n - 1].msg);
      }
      hide Subsequence, ServiceStep;
      assert sent + [] == sent;
    }
  }

  /** Neither the channel was left nor the subscription cancelled, and the queue was
      never full when a message came. */
  predicate Undisturbed(ops: seq<Op>, p: nat, id: nat, n: nat)
    requires p < n <= |ops| && ops[p].Subscribe?
  {
    forall k | p < k < n ::
      && ops[k] != LeaveChannel(ops[p].channel)
      && ops[k] != Unsubscribe(ops[p].channel, id)
      && (ops[k].Dispatch? && ops[k].msg.channel == ops[p].channel ==> !Full(ServiceAt(ops, p, id, k).queue))
  }

  /** Every message between a subscription and its first disturbance arrives, in
      order, exactly when the channel had a buffer at the time of subscribing or
      nothing was dispatched. */
  lemma {:induction false} UndisturbedMissesNothing(ops: seq<Op>, p: nat, id: nat, n: nat)
    requires p < n <= |ops| && ops[p].Subscribe? && Undisturbed(ops, p, id, n)
    ensures ServiceAt(ops, p, id, n).served == Buffered(ops[..p], ops[p].channel)
    ensures ServiceAt(ops, p, id, n).queue.accepted == DispatchedAfter(ops, p, n)
            <==> Buffered(ops[..p], ops[p].channel) || DispatchedAfter(ops, p, n) == []
    decreases n
  {
    if !Buffered(ops[..p], ops[p].channel) {
      UnservedStaysEmpty(ops, p, id, n);
    } else if n > p + 1 {
      assert Undisturbed(ops, p, id, n - 1);
      UndisturbedMissesNothing(ops, p, id, n - 1);
    }
  }
}
