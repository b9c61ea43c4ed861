/** Whole runs of a task that fails every time: where each hop goes, how many there are, and that the
    wire form makes no difference up to 49 retries. */
module RetryRuns {
  import opened GoInt
  import opened Tasks
  import opened Backoff
  import opened Wire
  import opened Broker
  import opened RetryRule
  import opened Protocol
  import opened Lineage
  import opened Safety

  // ---- The abstract rule: two counters and a destination

  datatype Destination = Wait | Fail | Stall

  /** What the retry rule is meant to be, over unbounded counters, with the limit of the back-off. */
  ghost function Rule(retryCount: int, retriesDone: int): (Destination, int) {
    if retriesDone >= retryCount then (Fail, retriesDone)
    else if retriesDone < LAST_EXACT_RETRY then (Wait, retriesDone + 1)
    else (Stall, retriesDone)
  }

  /** Where `n` failures in a row go, and the counter each leaves. */
  ghost function RuleRun(retryCount: int, retriesDone: int, n: nat): seq<(Destination, int)>
    decreases n
  {
    if n == 0 then [] else
    var step := Rule(retryCount, retriesDone);
    [step] + RuleRun(retryCount, step.1, n - 1)
  }

  /** A run waits, up to its limit or up to 49 times, and then fails or stalls for good; its counter goes
      up by one until then. */
  lemma {:induction false} RuleRunIs(retryCount: int, retriesDone: nat, n: nat, i: nat)
    requires i < n && (retriesDone <= retryCount || retriesDone == 0) && retriesDone <= LAST_EXACT_RETRY
    ensures |RuleRun(retryCount, retriesDone, n)| == n
    ensures RuleRun(retryCount, retriesDone, n)[i].0
         == if retriesDone + i >= retryCount && retryCount <= LAST_EXACT_RETRY then Fail
            else if retriesDone + i < LAST_EXACT_RETRY then Wait
            else Stall
    ensures RuleRun(retryCount, retriesDone, n)[i].1
         == Min(retriesDone + i + 1, Max(Min(retryCount, LAST_EXACT_RETRY), retriesDone))
    decreases n
  {
    var done := Rule(retryCount, retriesDone).1;
    if n == 1 {
      assert RuleRun(retryCount, done, 0) == [];
    } else {
      RuleRunIs(retryCount, done, n - 1, if i == 0 then 0 else i - 1);
    }
  }

  // ---- The code's hops

  /** One failure: the two clock readings, and what was sent. */
  datatype Hop = Hop(retriedAt: Time, publishedAt: Time, sent: Sent)

  /** What a failed execution sends. */
  function Resent(cfg: Config, sig: Signature, retriedAt: Time, publishedAt: Time): Option<Sent> {
    match RetryPlan(cfg, sig, retriedAt)
    case Skip => None
    case Send(out) =>
      var published := Publish(cfg, out, publishedAt);
      if published.Ok? then Some(published.value.sent) else None
  }

  /** The message is delivered again: straight from the task queue, or after expiring in the delayed
      queue, which it does once it is at the head. */
  predicate ComesBack(cfg: Config, sent: Sent) {
    || QueueFor(cfg, sent.key) == Some(cfg.taskQueue)
    || (QueueFor(cfg, sent.key) == Some(cfg.delayedQueue) && sent.msg.expiration.Some?)
  }

  /** The hops of a task that always fails, from the signature first received, whatever the clock readings. */
  predicate FailingRun(cfg: Config, sig: Signature, hops: seq<Hop>)
    decreases |hops|
  {
    hops == [] ||
    var hop := hops[0];
    && Resent(cfg, sig, hop.retriedAt, hop.publishedAt) == Some(hop.sent)
    && (|hops| > 1 ==>
          && ComesBack(cfg, hop.sent)
          && Received(hop.sent.msg).Ok?
          && FailingRun(cfg, Received(hop.sent.msg).value, hops[1..]))
  }

  predicate GoesTo(cfg: Config, sent: Sent, to: Destination) {
    match to
    case Wait => sent.key == cfg.delayedQueue
    case Fail => sent.key == cfg.failedQueue
    case Stall => sent.key != cfg.failedQueue
  }

  predicate Follows(cfg: Config, sent: Sent, step: (Destination, int)) {
    && GoesTo(cfg, sent, step.0)
    && Received(sent.msg).Ok?
    && Received(sent.msg).value.retriesDone == step.1
  }

  /** As received from the task queue with its counter in the exact range. */
  predicate Runnable(cfg: Config, sig: Signature) {
    && Settled(sig) && Stamped(sig)
    && 0 <= sig.retriesDone <= LAST_EXACT_RETRY && (sig.retriesDone <= sig.retryCount || sig.retriesDone == 0)
    && sig.routingKey != cfg.failedQueue
  }

  lemma PlanIsOutgoing(cfg: Config, sig: Signature, now: Time)
    requires NamedQueues(cfg) && Runnable(cfg, sig)
    ensures var plan := RetryPlan(cfg, sig, now);
      && plan.Send? && Outgoing(cfg, sig, plan.signature, RetryOrigin(sig))
      && (RetryOrigin(sig).Stalled? <==> Rule(sig.retryCount, sig.retriesDone).0 == Stall)
      && plan.signature.retriesDone == Rule(sig.retryCount, sig.retriesDone).1
  {
    if !Exhausted(sig) {
      if sig.retriesDone < LAST_EXACT_RETRY {
        IntervalExact(sig.retriesDone + 1);
      } else {
        IntervalWrapsAt50(sig.retriesDone + 1);
      }
    }
  }

  /** One hop of the code, encoding and decoding included, is one step of the rule. */
  lemma HopFollowsRule(cfg: Config, sig: Signature, retriedAt: Time, publishedAt: Time)
    requires NamedQueues(cfg) && Runnable(cfg, sig)
    ensures Resent(cfg, sig, retriedAt, publishedAt).Some?
    ensures var sent := Resent(cfg, sig, retriedAt, publishedAt).value;
      && Follows(cfg, sent, Rule(sig.retryCount, sig.retriesDone))
      && Received(sent.msg).value.retryCount == sig.retryCount
      && (ComesBack(cfg, sent) ==> Runnable(cfg, Received(sent.msg).value))
      && (sent.key == cfg.failedQueue ==> !ComesBack(cfg, sent))
  {
    var out := RetryPlan(cfg, sig, retriedAt).signature;
    var why := RetryOrigin(sig);
    PlanIsOutgoing(cfg, sig, retriedAt);
    OutgoingDescends(cfg, sig, sig, out, why);
    PublishedIsReceived(cfg, out, publishedAt);
    hide Decode, Prepare, RetryPlan, RetryOrigin, RetryInterval, Normal, GetTaskTTL;
    var sent := Publish(cfg, out, publishedAt).value.sent;
    assert out.routingKey != "" ==> sent.key == out.routingKey;
    assert out.routingKey == "" ==> sent.key in {"", cfg.bindingKey};
  }

  /** Every failing run is a run of the rule: the destinations and the counters agree at every hop,
      and only the last hop may fail to come back. */
  lemma {:induction false} RunFollowsRule(cfg: Config, sig: Signature, hops: seq<Hop>, i: nat)
    requires NamedQueues(cfg) && Runnable(cfg, sig) && FailingRun(cfg, sig, hops) && i < |hops|
    ensures |RuleRun(sig.retryCount, sig.retriesDone, |hops|)| == |hops|
    ensures Follows(cfg, hops[i].sent, RuleRun(sig.retryCount, sig.retriesDone, |hops|)[i])
    ensures i < |hops| - 1 ==> hops[i].sent.key != cfg.failedQueue
    decreases |hops|
  {
    hide Runnable, Received, Resent, ComesBack, Follows, QueueFor;
    var hop := hops[0];
    HopFollowsRule(cfg, sig, hop.retriedAt, hop.publishedAt);
    var step := Rule(sig.retryCount, sig.retriesDone);
    if |hops| == 1 {
      assert RuleRun(sig.retryCount, step.1, 0) == [];
    } else {
      ReceivedCounter(cfg, hop.sent, step);
      RunFollowsRule(cfg, Received(hop.sent.msg).value, hops[1..], if i == 0 then 0 else i - 1);
    }
  }

  lemma ReceivedCounter(cfg: Config, sent: Sent, step: (Destination, int))
    requires Follows(cfg, sent, step)
    ensures Received(sent.msg).Ok? && Received(sent.msg).value.retriesDone == step.1
  {
  }

  // ---- Main results

  /** A submission with no retries done, on its way to the task queue. */
  predicate Fresh(cfg: Config, submitted: Signature) {
    Stamped(submitted) && submitted.retriesDone == 0 && submitted.routingKey != cfg.failedQueue
  }

  lemma FreshIsRunnable(cfg: Config, submitted: Signature)
    requires NamedQueues(cfg) && Fresh(cfg, submitted)
    ensures Runnable(cfg, Normal(submitted)) && Normal(submitted).retriesDone == 0
  {
  }

  /** How a task ends that fails every time: hop `i` goes to the failed queue if and only if at most
      49 retries are allowed and `i` is their number. All earlier hops then go to the delayed queue,
      so the task is run exactly once more than it may be retried, and with a retry count of 50 or
      more it never gets to the failed queue. */
  lemma FailsFinallyIff(cfg: Config, submitted: Signature, hops: seq<Hop>, i: nat)
    requires NamedQueues(cfg) && Fresh(cfg, submitted)
    requires FailingRun(cfg, Normal(submitted), hops) && i < |hops|
    ensures var retryCount := Normal(submitted).retryCount;
      && (hops[i].sent.key == cfg.failedQueue <==> retryCount <= LAST_EXACT_RETRY && i == Max(retryCount, 0))
      && (retryCount <= LAST_EXACT_RETRY ==> i <= Max(retryCount, 0))
      && (i < Min(retryCount, LAST_EXACT_RETRY) ==> hops[i].sent.key == cfg.delayedQueue)
  {
    var first := Normal(submitted);
    FreshIsRunnable(cfg, submitted);
    RunFollowsRule(cfg, first, hops, i);
    RuleRunIs(first.retryCount, 0, |hops|, i);
    hide Runnable, Received, Resent, ComesBack, FailingRun, Normal, Fresh;
    if first.retryCount <= LAST_EXACT_RETRY && i > Max(first.retryCount, 0) {
      FailsAtLimit(cfg, first, hops);
    }
  }

  lemma FailsAtLimit(cfg: Config, first: Signature, hops: seq<Hop>)
    requires NamedQueues(cfg) && Runnable(cfg, first) && first.retriesDone == 0 && FailingRun(cfg, first, hops)
    requires first.retryCount <= LAST_EXACT_RETRY
    ensures |hops| <= Max(first.retryCount, 0) + 1
  {
    hide Runnable, Received, Resent, ComesBack, FailingRun;
    var limit := Max(first.retryCount, 0);
    if limit < |hops| {
      RunFollowsRule(cfg, first, hops, limit);
      RuleRunIs(first.retryCount, 0, |hops|, limit);
    }
  }

  lemma PromptHopComesBack(cfg: Config, sig: Signature, now: Time)
    requires NamedQueues(cfg) && Runnable(cfg, sig) && Rule(sig.retryCount, sig.retriesDone).0 == Wait
    ensures Resent(cfg, sig, now, now).Some? && ComesBack(cfg, Resent(cfg, sig, now, now).value)
  {
    IntervalExact(sig.retriesDone + 1);
    hide RetryInterval, Received, Runnable, Resent, ComesBack, NamedQueues, SkipsDelay;
    RetryExpiresIff(cfg, sig, now, now);
  }

  /** Such a run exists in full length whenever every retry is published promptly: one hop for each
      retry still allowed, and a last one to the failed queue. */
  lemma {:induction false} PromptRunFails(cfg: Config, sig: Signature, now: Time) returns (hops: seq<Hop>)
    requires NamedQueues(cfg) && Runnable(cfg, sig) && sig.retryCount <= LAST_EXACT_RETRY
    ensures FailingRun(cfg, sig, hops) && |hops| == Max(sig.retryCount - sig.retriesDone, 0) + 1
    ensures hops[|hops| - 1].sent.key == cfg.failedQueue
    decreases Max(sig.retryCount - sig.retriesDone, 0)
  {
    HopFollowsRule(cfg, sig, now, now);
    var sent := Resent(cfg, sig, now, now).value;
    hops := [Hop(now, now, sent)];
    if sig.retriesDone < sig.retryCount {
      PromptHopComesBack(cfg, sig, now);
      var next := Received(sent.msg).value;
      hide Runnable, Received, Resent, ComesBack, QueueFor;
      var rest := PromptRunFails(cfg, next, now);
      hops := hops + rest;
      assert hops[1..] == rest;
    }
  }

  /** Hop `i` carries the number of the retry it is, or that of the last one. */
  lemma HopCounts(cfg: Config, submitted: Signature, hops: seq<Hop>, i: nat)
    requires NamedQueues(cfg) && Fresh(cfg, submitted)
    requires FailingRun(cfg, Normal(submitted), hops) && i < |hops|
    ensures Received(hops[i].sent.msg).Ok?
    ensures Received(hops[i].sent.msg).value.retriesDone
         == Min(i + 1, Max(Min(Normal(submitted).retryCount, LAST_EXACT_RETRY), 0))
  {
    var first := Normal(submitted);
    FreshIsRunnable(cfg, submitted);
    hide Runnable, Received, Resent, ComesBack, FailingRun, Normal, Fresh, Follows, NamedQueues, QueueFor;
    RunFollowsRule(cfg, first, hops, i);
    RuleRunIs(first.retryCount, 0, |hops|, i);
    ReceivedCounter(cfg, hops[i].sent, RuleRun(first.retryCount, 0, |hops|)[i]);
  }

  /** Up to 49 retries, and of more for the first 49 hops, the wire form makes no difference: two runs with
      the same retry count go the same way, in whichever form each travels. Their counters are the same
      throughout. */
  lemma WireFormsAgree(cfg: Config, one: Signature, hops: seq<Hop>, other: Signature, others: seq<Hop>, i: nat)
    requires NamedQueues(cfg) && Fresh(cfg, one) && Fresh(cfg, other)
    requires Normal(one).retryCount == Normal(other).retryCount
    requires FailingRun(cfg, Normal(one), hops) && FailingRun(cfg, Normal(other), others)
    requires i < |hops| && i < |others|
    ensures Normal(one).retryCount <= LAST_EXACT_RETRY || i < LAST_EXACT_RETRY ==>
      hops[i].sent.key == others[i].sent.key
    ensures Received(hops[i].sent.msg).Ok? && Received(others[i].sent.msg).Ok?
    ensures Received(hops[i].sent.msg).value.retriesDone == Received(others[i].sent.msg).value.retriesDone
  {
    FailsFinallyIff(cfg, one, hops, i);
    FailsFinallyIff(cfg, other, others, i);
    HopCounts(cfg, one, hops, i);
    HopCounts(cfg, other, others, i);
    hide Runnable, Received, FailingRun, Normal, Fresh, NamedQueues;
  }

  /** Runnable, and at retry 50 a document has been in the delayed queue. */
  predicate Travelled(cfg: Config, sig: Signature) {
    && Runnable(cfg, sig)
    && (UsesHeaders(sig) || sig.retriesDone < LAST_EXACT_RETRY || sig.routingKey == cfg.delayedQueue)
  }

  /** A hop that comes back, of a task that allows 50 retries or more, keeps the wire form. */
  lemma HopKeepsForm(cfg: Config, sig: Signature, retriedAt: Time, publishedAt: Time)
    requires NamedQueues(cfg) && Travelled(cfg, sig) && LAST_EXACT_RETRY < sig.retryCount
    ensures Resent(cfg, sig, retriedAt, publishedAt).Some?
    ensures var sent := Resent(cfg, sig, retriedAt, publishedAt).value;
      && Received(sent.msg).Ok?
      && var next := Received(sent.msg).value;
      && next.retryCount == sig.retryCount && UsesHeaders(next) == UsesHeaders(sig)
      && next.retriesDone == Min(sig.retriesDone + 1, LAST_EXACT_RETRY)
      && (ComesBack(cfg, sent) ==> Travelled(cfg, next))
  {
    HopFollowsRule(cfg, sig, retriedAt, publishedAt);
    var out := RetryPlan(cfg, sig, retriedAt).signature;
    PlanIsOutgoing(cfg, sig, retriedAt);
    OutgoingDescends(cfg, sig, sig, out, RetryOrigin(sig));
    PublishedIsReceived(cfg, out, publishedAt);
    NormalIsIdempotent(out);
    NormalKeepsKey(out);
    hide Decode, Prepare, RetryInterval, Normal, GetTaskTTL, ComesBack, Settled, Marshals, QueueFor, RetryPlan;
  }

  lemma NormalKeepsKey(sig: Signature)
    ensures !UsesHeaders(sig) ==> Normal(sig).routingKey == sig.routingKey
  {
  }

  lemma StalledKey(cfg: Config, sig: Signature, retriedAt: Time, publishedAt: Time)
    requires NamedQueues(cfg) && Travelled(cfg, sig) && LAST_EXACT_RETRY < sig.retryCount
    requires LAST_EXACT_RETRY <= sig.retriesDone
    ensures Resent(cfg, sig, retriedAt, publishedAt).Some?
    ensures Resent(cfg, sig, retriedAt, publishedAt).value.key == cfg.delayedQueue <==> !UsesHeaders(sig)
  {
    hide Received, Resent, ComesBack, QueueFor, Settled, Stamped, SkipsDelay, NamedQueues;
    RetryFiftyStalls(cfg, sig, retriedAt, publishedAt);
    DelayedKeys(cfg, Resent(cfg, sig, retriedAt, publishedAt).value.key);
  }

  /** From hop 49 on a document keeps going to the delayed queue, and what travels in headers does not. */
  lemma {:induction false} StalledKeys(cfg: Config, sig: Signature, hops: seq<Hop>, i: nat)
    requires NamedQueues(cfg) && Travelled(cfg, sig) && LAST_EXACT_RETRY < sig.retryCount
    requires FailingRun(cfg, sig, hops) && i < |hops| && LAST_EXACT_RETRY <= sig.retriesDone + i
    ensures hops[i].sent.key == cfg.delayedQueue <==> !UsesHeaders(sig)
    decreases |hops|
  {
    hide Travelled, Received, Resent, ComesBack, NamedQueues, UsesHeaders;
    var hop := hops[0];
    if i == 0 {
      StalledKey(cfg, sig, hop.retriedAt, hop.publishedAt);
    } else {
      HopKeepsForm(cfg, sig, hop.retriedAt, hop.publishedAt);
      StalledKeys(cfg, Received(hop.sent.msg).value, hops[1..], i - 1);
    }
  }

  lemma DelayedKeys(cfg: Config, key: string)
    requires NamedQueues(cfg)
    ensures QueueFor(cfg, key) == Some(cfg.delayedQueue) <==> key == cfg.delayedQueue
    ensures cfg.delayedQueue != cfg.taskQueue
  {
  }

  /** Between the two wire forms the traces agree exactly up to 49 retries, and of more for the first 49
      hops. */
  lemma WireFormsAgreeIff(cfg: Config, one: Signature, hops: seq<Hop>, other: Signature, others: seq<Hop>, i: nat)
    requires NamedQueues(cfg) && Fresh(cfg, one) && Fresh(cfg, other) && UsesHeaders(one) && !UsesHeaders(other)
    requires Normal(one).retryCount == Normal(other).retryCount
    requires FailingRun(cfg, Normal(one), hops) && FailingRun(cfg, Normal(other), others)
    requires i < |hops| && i < |others|
    ensures hops[i].sent.key == others[i].sent.key <==>
      Normal(one).retryCount <= LAST_EXACT_RETRY || i < LAST_EXACT_RETRY
  {
    if Normal(one).retryCount <= LAST_EXACT_RETRY || i < LAST_EXACT_RETRY {
      WireFormsAgree(cfg, one, hops, other, others, i);
    } else {
      FreshTravels(cfg, one);
      FreshTravels(cfg, other);
      StalledKeys(cfg, Normal(one), hops, i);
      StalledKeys(cfg, Normal(other), others, i);
    }
    hide Runnable, Received, FailingRun, Normal, Fresh, NamedQueues, Travelled;
  }

  lemma FreshTravels(cfg: Config, submitted: Signature)
    requires NamedQueues(cfg) && Fresh(cfg, submitted)
    ensures Travelled(cfg, Normal(submitted)) && Normal(submitted).retriesDone == 0
    ensures UsesHeaders(Normal(submitted)) == UsesHeaders(submitted)
  {
    FreshIsRunnable(cfg, submitted);
    NormalIsIdempotent(submitted);
    hide Normal, Settled, Stamped, NamedQueues;
  }

  /** Retry 50 gets no delay and advances nothing: the very same message is sent again. In header form it
      goes straight back to the task queue, without end, unless its ETA is ahead, when no queue stores it.
      As a document it goes to the delayed queue, and comes back only if it expires: after 5 ms if the
      task trades its delays for priority, or when its ETA is ahead. Otherwise it stays. */
  lemma RetryFiftyStalls(cfg: Config, sig: Signature, retriedAt: Time, publishedAt: Time)
    requires NamedQueues(cfg) && Runnable(cfg, sig) && sig.retriesDone == LAST_EXACT_RETRY < sig.retryCount
    requires !UsesHeaders(sig) ==> sig.routingKey == cfg.delayedQueue
    ensures Resent(cfg, sig, retriedAt, publishedAt).Some?
    ensures var sent := Resent(cfg, sig, retriedAt, publishedAt).value;
      var ahead := sig.eta.Some? && publishedAt <= sig.eta.value - MILLISECOND;
      var hurried := sig.eta.Some? && sig.priority > 1 && sig.taskTimeOut != 0 && sig.createdAt.Some?;
      && Received(sent.msg) == Ok(sig)
      && (sent.msg.expiration.Some? <==> ahead || hurried)
      && (hurried ==> sent.msg.expiration == Some(5))
      && QueueFor(cfg, sent.key) == (if !UsesHeaders(sig) then Some(cfg.delayedQueue)
                                     else if ahead then None else Some(cfg.taskQueue))
      && (ComesBack(cfg, sent) <==>
            if UsesHeaders(sig) then !ahead else ahead || hurried)
  {
    PlanIsOutgoing(cfg, sig, retriedAt);
    PublishedIsReceived(cfg, sig, publishedAt);
    hide Decode, Prepare, RetryPlan, RetryInterval;
    assert UsesHeaders(sig) ==> sig.routingKey == "" && sig.priority == 0;
  }

  /** Once it has come back from retry 50 it does so without end: there are runs of every length, and none
      of their hops goes to the failed queue. */
  lemma {:induction false} StallsForEver(cfg: Config, sig: Signature, now: Time, n: nat) returns (hops: seq<Hop>)
    requires NamedQueues(cfg) && Runnable(cfg, sig) && sig.retriesDone == LAST_EXACT_RETRY < sig.retryCount
    requires !UsesHeaders(sig) ==> sig.routingKey == cfg.delayedQueue
    requires Resent(cfg, sig, now, now).Some? && ComesBack(cfg, Resent(cfg, sig, now, now).value)
    ensures FailingRun(cfg, sig, hops) && |hops| == n
    ensures forall i :: 0 <= i < n ==> hops[i].sent.key != cfg.failedQueue
  {
    if n == 0 {
      hops := [];
    } else {
      RetryFiftyStalls(cfg, sig, now, now);
      HopFollowsRule(cfg, sig, now, now);
      var hop := Hop(now, now, Resent(cfg, sig, now, now).value);
      hide Runnable, Received, Resent, ComesBack, NamedQueues, QueueFor;
      var rest := StallsForEver(cfg, sig, now, n - 1);
      hops := [hop] + rest;
      assert hops[1..] == rest;
    }
  }

  // ---- Expirations, exactly

  lemma RetryTTL(out: Signature, now: Time)
    requires out.eta.Some? && out.eta.value <= now + MAX_DELAY
    ensures var ttl := GetTaskTTL(out, now);
      && (SkipsDelay(out) ==> ttl == 5)
      && (ttl > 0 <==> SkipsDelay(out) || now <= out.eta.value - MILLISECOND)
      && (ttl > 0 && !SkipsDelay(out) ==> ttl == (out.eta.value - now) / MILLISECOND && 1 <= ttl <= 10_000)
  {
  }

  /** A retry comes back from the delayed queue exactly when it is published a millisecond before its
      interval is over, or when the task trades its delays for priority. In the first case its
      time-to-live is what is left in whole milliseconds, 1 to 10000; in the second it is 5, however long
      the interval. */
  lemma RetryExpiresIff(cfg: Config, sig: Signature, retriedAt: Time, publishedAt: Time)
    requires NamedQueues(cfg) && Runnable(cfg, sig)
    requires Rule(sig.retryCount, sig.retriesDone).0 == Wait && retriedAt <= publishedAt
    ensures Resent(cfg, sig, retriedAt, publishedAt).Some?
    ensures var sent := Resent(cfg, sig, retriedAt, publishedAt).value;
      var end := retriedAt + RetryInterval(sig.retriesDone + 1);
      var hurried := sig.priority > 1 && sig.taskTimeOut != 0 && sig.createdAt.Some?;
      && (ComesBack(cfg, sent) <==> hurried || publishedAt <= end - MILLISECOND)
      && (ComesBack(cfg, sent) ==>
            && sent.msg.expiration == Some(if hurried then 5 else (end - publishedAt) / MILLISECOND)
            && 1 <= sent.msg.expiration.value <= 10_000)
  {
    IntervalExact(sig.retriesDone + 1);
    HopFollowsRule(cfg, sig, retriedAt, publishedAt);
    hide Decode, Prepare, RetryInterval, Received, Runnable, Follows, GetTaskTTL;
    RetryTTL(RetryPlan(cfg, sig, retriedAt).signature, publishedAt);
  }

  /** A message sent to the timeout queue has no timeout left to trade delays with. It expires exactly when
      its ETA is a millisecond ahead, after what is left until then. */
  lemma TimeoutMessageExpiresIff(cfg: Config, sig: Signature, publishedAt: Time)
    requires NamedQueues(cfg) && Settled(sig) && Stamped(sig)
    ensures var plan := TimeoutPlan(cfg, sig);
      plan.Send? && Publish(cfg, plan.signature, publishedAt).Ok?
      && var sent := Publish(cfg, plan.signature, publishedAt).value.sent;
      && sent.key == cfg.timeoutQueue && Received(sent.msg) == Ok(Normal(plan.signature))
      && (sent.msg.expiration.Some? <==> sig.eta.Some? && publishedAt <= sig.eta.value - MILLISECOND)
      && (sent.msg.expiration.Some? && sig.eta.value - publishedAt <= MAX_INT64 ==>
            sent.msg.expiration.value == (sig.eta.value - publishedAt) / MILLISECOND)
  {
    var out := TimeoutPlan(cfg, sig).signature;
    PublishedIsReceived(cfg, out, publishedAt);
    hide Decode, Prepare, Normal;
  }

  /** A message sent to the failed queue expires there exactly when the task has an ETA and trades its
      delays for priority, and then after 5 ms, or when its ETA is still a millisecond ahead. */
  lemma FailedMessageExpiresIff(cfg: Config, sig: Signature, retriedAt: Time, publishedAt: Time)
    requires NamedQueues(cfg) && Runnable(cfg, sig) && Exhausted(sig)
    ensures Resent(cfg, sig, retriedAt, publishedAt).Some?
    ensures var expiration := Resent(cfg, sig, retriedAt, publishedAt).value.msg.expiration;
      var hurried := sig.priority > 1 && sig.taskTimeOut != 0 && sig.createdAt.Some?;
      && (expiration.Some? <==> sig.eta.Some? && (hurried || publishedAt <= sig.eta.value - MILLISECOND))
      && (expiration.Some? && hurried ==> expiration.value == 5)
      && (expiration.Some? && !hurried && sig.eta.value - publishedAt <= MAX_INT64 ==>
            expiration.value == (sig.eta.value - publishedAt) / MILLISECOND)
  {
  }
}
