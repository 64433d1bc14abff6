/** The herald bot: its token-bucket rate limiter, its routing table and its
    delivery queue. Times are seconds on a real-valued clock. */
module Herald {
  import opened TokenLedger

  // ----- The token bucket -----

  class RateLimiter {
    var tokens: real
    const maxBurst: real
    const rate: real
    var last: real

    constructor (ratePerSec: real, burst: nat, now: real)
      ensures maxBurst == burst as real && rate == ratePerSec
      ensures State() == Level(burst as real, Earned(ratePerSec, now))
    {
      tokens, maxBurst, rate, last := burst as real, burst as real, ratePerSec, now;
    }

    ghost function State(): Level
      reads this
    {
      Level(tokens, Earned(rate, last))
    }

    method Allow(now: real) returns (ok: bool)
      modifies this
      ensures State() == Take(maxBurst, old(State()), Earned(rate, now)).0
      ensures ok == Take(maxBurst, old(State()), Earned(rate, now)).1
    {
      var elapsed := now - last;
      assert elapsed * rate == Earned(rate, now) - Earned(rate, last);
      last := now;
      tokens := MinReal(maxBurst, tokens + elapsed * rate);
      if tokens >= 1.0 {
        tokens := tokens - 1.0;
        return true;
      }
      return false;
    }
  }

  // ----- The same, in seconds -----

  /** The flow bound over every sub-run: the calls granted from call i to call k,
      both included, number at most burst + rate * (t_k - t_i). */
  lemma GrantsBounded(l: Limit, start: real, times: seq<real>, i: nat, k: nat)
    requires ValidLimit(l) && ValidClock(start, times) && i <= k < |times|
    ensures i <= k + 1 <= |Calls(l, start, times)|
    ensures Grants(Calls(l, start, times), i, k + 1) as real <= l.burst + Earned(l.rate, times[k] - times[i])
  {
    hide Earned;
    CallsAreLedger(l, start, times);
    GrantsWithinLedger(l.burst, Calls(l, start, times), i, k);
  }

  /** The limiter refuses nothing it need not: a call is granted exactly when
      granting it keeps the flow bound over every sub-run that ends with it. */
  lemma GrantedIffConforming(l: Limit, start: real, times: seq<real>, k: nat)
    requires ValidLimit(l) && ValidClock(start, times) && k < |times|
    ensures |Calls(l, start, times)| == |times|
    ensures Calls(l, start, times)[k].granted <==>
            forall i | 0 <= i <= k :: Conforms(l, times, Calls(l, start, times), i, k)
  {
    hide Earned;
    CallsAreLedger(l, start, times);
    var calls := Calls(l, start, times);
    GrantedIffLedgerAllows(l.burst, calls, k);
    forall i | 0 <= i <= k
      ensures Conforms(l, times, calls, i, k) <==> Allowance(l.burst, calls, i, k) >= 1.0
    {
      ConformsIffAllowed(l, times, calls, i, k);
    }
  }

  /** Tokens stay between zero and the burst, and a refusal means less than one was there. */
  lemma TokensInRange(l: Limit, start: real, times: seq<real>, k: nat)
    requires ValidLimit(l) && ValidClock(start, times) && k < |times|
    ensures |Calls(l, start, times)| == |times|
    ensures
      var c := Calls(l, start, times)[k];
      0.0 <= c.tokens <= l.burst && 0.0 <= Left(c) && (!c.granted <==> c.tokens < 1.0)
  {
    hide Earned;
    CallsAreLedger(l, start, times);
  }

  // ----- Routing -----

  predicate Matches(routes: map<string, string>, eventType: string, prefix: string) {
    prefix in routes && prefix <= eventType
  }

  /** The longest configured prefix of the event type. */
  ghost predicate Best(routes: map<string, string>, eventType: string, prefix: string) {
    && Matches(routes, eventType, prefix)
    && forall other | Matches(routes, eventType, other) :: |other| <= |prefix|
  }

  lemma BestIsUnique(routes: map<string, string>, eventType: string, p: string, q: string)
    requires Best(routes, eventType, p) && Best(routes, eventType, q)
    ensures p == q
  {
    assert p == eventType[..|p|] && q == eventType[..|q|];
  }

  /** The default channel serves when no prefix matches and also when the
      longest one is mapped to the empty channel. */
  ghost predicate RoutedTo(routes: map<string, string>, defaultChannel: string, eventType: string, channel: string) {
    || (exists p :: Best(routes, eventType, p) && routes[p] != "" && channel == routes[p])
    || (channel == defaultChannel && forall p | Best(routes, eventType, p) :: routes[p] == "")
  }

  /** Scans the table in whatever order the map yields its keys. */
  method Route(routes: map<string, string>, defaultChannel: string, eventType: string) returns (channel: string)
    ensures RoutedTo(routes, defaultChannel, eventType, channel)
  {
    var best := "";
    var bestLen := -1;
    ghost var bestPrefix := "";
    var todo := routes.Keys;
    while todo != {}
      invariant todo <= routes.Keys
      invariant bestLen == -1 ==> best == "" && forall p | Matches(routes, eventType, p) :: p in todo
      invariant bestLen != -1 ==> Matches(routes, eventType, bestPrefix) && bestLen == |bestPrefix|
      invariant bestLen != -1 ==> best == routes[bestPrefix]
      invariant forall p | Matches(routes, eventType, p) && p !in todo :: |p| <= bestLen
    {
      var prefix :| prefix in todo;
      todo := todo - {prefix};
      if prefix <= eventType && |prefix| > bestLen {
        best := routes[prefix];
        bestLen := |prefix|;
        bestPrefix := prefix;
      }
    }
    if bestLen != -1 {
      assert Best(routes, eventType, bestPrefix);
      forall p | Best(routes, eventType, p)
        ensures p == bestPrefix
      {
        BestIsUnique(routes, eventType, p, bestPrefix);
      }
    }
    if best != "" {
      return best;
    }
    return defaultChannel;
  }

  /** So the map's iteration order cannot change where an event goes. */
  lemma RouteIsDetermined(routes: map<string, string>, defaultChannel: string, eventType: string, a: string, b: string)
    requires RoutedTo(routes, defaultChannel, eventType, a)
    requires RoutedTo(routes, defaultChannel, eventType, b)
    ensures a == b
  {
    forall p, q | Best(routes, eventType, p) && Best(routes, eventType, q)
      ensures p == q
    {
      BestIsUnique(routes, eventType, p, q);
    }
  }

  // ----- Queue and counters -----

  const DEFAULT_QUEUE_SIZE := 256

  datatype Event = Event(eventType: string, channel: string, message: string)

  datatype Fate = Dropped | Delivered

  class Bot {
    const routes: map<string, string>
    const defaultChannel: string
    const limiter: RateLimiter
    var queue: seq<Event>
    var client: bool               // the IRC client is present
    var delivering: bool           // deliverLoop runs
    var delivered: nat
    var dropped: nat
    var sent: seq<(string, string)>
    ghost var emitted: nat

    constructor (routes: map<string, string>, defaultChannel: string, limiter: RateLimiter)
      ensures this.routes == routes && this.defaultChannel == defaultChannel && this.limiter == limiter
      ensures Balanced() && emitted == 0 && !delivering && sent == []
    {
      this.routes, this.defaultChannel, this.limiter := routes, defaultChannel, limiter;
      queue, client, delivering, delivered, dropped, sent := [], false, false, 0, 0, [];
      emitted := 0;
    }

    /** Every event emitted so far is queued, delivered or dropped, and counted once. */
    ghost predicate Balanced()
      reads this
    {
      && emitted == |queue| + delivered + dropped && |queue| <= DEFAULT_QUEUE_SIZE
      && delivered == |sent|
      && (delivering ==> client)
    }

    /** Start, up to its wait: the client is there before delivery begins, and stays. */
    method Start()
      requires Balanced()
      modifies this
      ensures Balanced() && client && delivering
      ensures unchanged(`queue) && unchanged(`delivered) && unchanged(`dropped)
      ensures unchanged(`sent) && unchanged(`emitted)
    {
      client := true;
      delivering := true;
    }

    /** Never blocks: a full queue drops the event. */
    method Emit(e: Event)
      requires Balanced()
      modifies this
      ensures Balanced() && emitted == old(emitted) + 1
      ensures queue == if |old(queue)| < 256 then old(queue) + [e] else old(queue)
      ensures dropped == old(dropped) + (if |old(queue)| < 256 then 0 else 1)
      ensures unchanged(`delivered) && unchanged(`sent) && unchanged(`client) && unchanged(`delivering)
    {
      emitted := emitted + 1;
      if |queue| < DEFAULT_QUEUE_SIZE {
        queue := queue + [e];
      } else {
        dropped := dropped + 1;
      }
    }

    /** Takes the oldest event. It is dropped when it has no channel or the limiter
        refuses, and sent otherwise: the check for a client never fails here. */
    method Deliver(now: real) returns (fate: Fate, ghost channel: string)
      requires Balanced() && delivering && queue != []
      modifies this, limiter
      ensures Balanced() && queue == old(queue)[1..] && emitted == old(emitted)
      ensures unchanged(`client) && unchanged(`delivering)
      ensures if old(queue)[0].channel != "" then channel == old(queue)[0].channel
              else RoutedTo(routes, defaultChannel, old(queue)[0].eventType, channel)
      ensures fate == if channel == "" || !Take(limiter.maxBurst, old(limiter.State()), Earned(limiter.rate, now)).1
                      then Dropped else Delivered
      ensures limiter.State() == if channel == "" then old(limiter.State())
                                 else Take(limiter.maxBurst, old(limiter.State()), Earned(limiter.rate, now)).0
      ensures delivered == old(delivered) + (if fate == Delivered then 1 else 0)
      ensures dropped == old(dropped) + (if fate == Dropped then 1 else 0)
      ensures sent == old(sent) + (if fate == Delivered then [(channel, old(queue)[0].message)] else [])
    {
      var evt := queue[0];
      queue := queue[1..];
      fate := Dropped;
      var target := evt.channel;
      if target == "" {
        target := Route(routes, defaultChannel, evt.eventType);
      }
      channel := target;
      if target == "" {
        dropped := dropped + 1;
        return;
      }
      var ok := limiter.Allow(now);
      if !ok {
        dropped := dropped + 1;
        return;
      }
      if client {
        sent := sent + [(target, evt.message)];
        delivered := delivered + 1;
        fate := Delivered;
      }
    }
  }
}
