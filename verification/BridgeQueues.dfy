/** How much a subscriber's queue holds, and when a message for it is dropped. */
module BridgeQueues {
  import opened Bridge

  function Unread(q: Queue): int { |q.accepted| - q.taken }

  /** Over any run a subscriber has between none and 64 messages to read. */
  lemma {:induction false} UnreadBounded(ops: seq<Op>, p: nat, id: nat, n: nat)
    requires p < n <= |ops| && ops[p].Subscribe?
    ensures 0 <= Unread(ServiceAt(ops, p, id, n).queue) <= 64
    decreases n
  {
    if n > p + 1 {
      UnreadBounded(ops, p, id, n - 1);
    }
  }

  /** A message for a channel reaches a subscriber that is served there if and only if fewer
      than 64 wait to be read; a read takes the oldest that waits; and nothing else moves
      the queue. */
  lemma QueueMoves(ops: seq<Op>, p: nat, id: nat, n: nat)
    requires p + 1 < n <= |ops| && ops[p].Subscribe?
    ensures
      var v, q := ServiceAt(ops, p, id, n - 1), ServiceAt(ops, p, id, n).queue;
      if ops[n - 1].Dispatch? && ops[n - 1].msg.channel == ops[p].channel && v.served && Unread(v.queue) < 64
      then q == Queue(v.queue.accepted + [ops[n - 1].msg], v.queue.taken)
      else if ops[n - 1] == Take(id) && Unread(v.queue) > 0 then q == Queue(v.queue.accepted, v.queue.taken + 1)
      else q == v.queue
  {
    UnreadBounded(ops, p, id, n - 1);
  }

  /** A full queue that nobody reads stays as it is: the oldest messages are kept. */
  lemma {:induction false} StalledKeepsOldest(ops: seq<Op>, p: nat, id: nat, m: nat, n: nat)
    requires p < m <= n <= |ops| && ops[p].Subscribe?
    requires Unread(ServiceAt(ops, p, id, m).queue) == 64
    requires forall k | m <= k < n :: ops[k] != Take(id)
    ensures ServiceAt(ops, p, id, n).queue == ServiceAt(ops, p, id, m).queue
    decreases n
  {
    if m < n {
      StalledKeepsOldest(ops, p, id, m, n - 1);
      QueueMoves(ops, p, id, n);
    }
  }
}
