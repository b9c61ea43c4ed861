/** What may become of a signature that is delivered from a given time on. */
module Prospects {
  import opened GoInt
  import opened Tasks
  import opened Backoff
  import opened Wire
  import opened Broker
  import opened RetryRule
  import opened Protocol
  import opened Lineage

  /** Less than a millisecond is left until the ETA. */
  predicate Due(sig: Signature, now: Time) {
    sig.eta.Some? ==> sig.eta.value - MILLISECOND < now
  }

  /** A failure gives the task a new ETA. */
  predicate Retriable(sig: Signature) {
    !Exhausted(sig) && RetryInterval(sig.retriesDone + 1) > 0
  }

  /** What a failure publishes is lost in some run: a retry that does not wait for its ETA, or any other
      message with a time-to-live that is not waited for in the delayed queue. */
  predicate Sinks(cfg: Config, sig: Signature, now: Time) {
    if Retriable(sig) then SkipsDelay(sig)
    else (Exhausted(sig) || sig.routingKey != cfg.delayedQueue) && GetTaskTTL(sig, now) > 0
  }

  /** Some delivery from `from` on loses the task: it can time out before its ETA, or it can be started
      and is not registered, or its failure sinks. */
  predicate Doomed(w: World, sig: Signature, from: Time) {
    || (!Due(sig, from) && CheckTaskTimeout(sig, sig.eta.value - MILLISECOND))
    || (!CheckTaskTimeout(sig, from) && (sig.name !in w.registered || Sinks(w.cfg, sig, from)))
  }

  /** When the time-to-live of a submission is over. */
  function Back(sub: Submission): Time {
    sub.at + GetTaskTTL(sub.sig, sub.at) * MILLISECOND
  }

  /** If it has a time-to-live, the delayed queue waits for it to end. */
  predicate Scheduled(cfg: Config, sub: Submission) {
    GetTaskTTL(sub.sig, sub.at) > 0 ==> sub.sig.routingKey == cfg.delayedQueue
  }

  /** Published to be run, and not straight to a queue that no worker takes it from. */
  predicate ComesIn(cfg: Config, sub: Submission) {
    sub.sig.routingKey in {"", cfg.bindingKey} || GetTaskTTL(sub.sig, sub.at) > 0
  }

  // ---- Times

  lemma LateStaysLate(sig: Signature, now: Time, later: Time)
    requires now <= later && CheckTaskTimeout(sig, now)
    ensures CheckTaskTimeout(sig, later)
  {
  }

  /** A time-to-live is 5 ms for an ETA that is traded for priority, and what is left until any other. */
  lemma TTLValue(sig: Signature, now: Time)
    ensures var hurried := sig.priority > 1 && sig.taskTimeOut != 0 && sig.createdAt.Some?;
      && (sig.eta.None? ==> GetTaskTTL(sig, now) == 0)
      && (sig.eta.Some? && hurried ==> GetTaskTTL(sig, now) == 5)
      && (sig.eta.Some? && !hurried && sig.eta.value <= now ==> GetTaskTTL(sig, now) == 0)
      && (sig.eta.Some? && !hurried && now <= sig.eta.value <= now + MAX_INT64 ==>
            GetTaskTTL(sig, now) == (sig.eta.value - now) / MILLISECOND)
      && (sig.eta.Some? && !hurried && sig.eta.value > now + MAX_INT64 ==>
            GetTaskTTL(sig, now) == MAX_INT64 / MILLISECOND)
  {
  }

  /** It is there exactly for an ETA that is a millisecond ahead or traded for priority. */
  lemma TTLIs(sig: Signature, now: Time)
    ensures GetTaskTTL(sig, now) >= 0
    ensures GetTaskTTL(sig, now) > 0 <==> sig.eta.Some? && (SkipsDelay(sig) || !Due(sig, now))
  {
  }

  lemma SinksEarlier(cfg: Config, sig: Signature, now: Time, later: Time)
    requires now <= later && Sinks(cfg, sig, later)
    ensures Sinks(cfg, sig, now)
  {
    TTLIs(sig, now);
    TTLIs(sig, later);
    hide GetTaskTTL, RetryInterval;
  }

  /** The doom of a signature can pass, but not come. */
  lemma DoomedEarlier(w: World, sig: Signature, now: Time, later: Time)
    requires now <= later && Doomed(w, sig, later)
    ensures Doomed(w, sig, now)
  {
    if Sinks(w.cfg, sig, later) {
      SinksEarlier(w.cfg, sig, now, later);
    }
    if CheckTaskTimeout(sig, now) {
      LateStaysLate(sig, now, later);
    }
    hide CheckTaskTimeout, Sinks;
  }

  /** An ETA is floored on the wire. */
  lemma NormalIsEarlier(sig: Signature, now: Time)
    requires Due(sig, now)
    ensures Due(Normal(sig), now)
  {
  }

  /** A time-to-live that is not traded for priority ends less than a millisecond before the ETA, in the
      range of a duration. */
  lemma BackIsDue(sub: Submission)
    requires !SkipsDelay(sub.sig) && (sub.sig.eta.Some? ==> sub.sig.eta.value - sub.at <= MAX_INT64)
    ensures Due(sub.sig, Back(sub))
  {
  }

  // ---- The next publish

  /** What is known of a signature that is about to be published again, so that it is not lost. */
  predicate Sound(cfg: Config, sig: Signature, out: Signature, why: Origin, now: Time) {
    match why
    case Submitted => false
    case Retried => !SkipsDelay(sig) && out.eta.Some? && out.eta.value <= now + MAX_DELAY
    case Stalled => sig.routingKey == cfg.delayedQueue || GetTaskTTL(sig, now) == 0
    case OutOfRetries => GetTaskTTL(sig, now) == 0
    case TimedOut => Due(sig, now)
  }

  /** Only a retry gets a time-to-live, or what is sent back to the delayed queue as it came from there.
      That of a retry is at most the cap, and ends less than a millisecond before its ETA. */
  lemma OutgoingTTL(cfg: Config, sig: Signature, out: Signature, why: Origin, now: Time)
    requires Outgoing(cfg, sig, out, why) && Sound(cfg, sig, out, why, now)
    ensures var ttl := GetTaskTTL(out, now);
      && 0 <= ttl
      && (ttl > 0 ==> out.routingKey == cfg.delayedQueue && (why.Retried? || why.Stalled?))
      && (why.Retried? ==> ttl <= MAX_DELAY / MILLISECOND && Due(out, now + ttl * MILLISECOND))
  {
  }

  lemma SoundLater(cfg: Config, sig: Signature, out: Signature, why: Origin, now: Time, later: Time)
    requires now <= later && Sound(cfg, sig, out, why, now)
    ensures Sound(cfg, sig, out, why, later)
  {
    TTLIs(sig, now);
    TTLIs(sig, later);
    hide GetTaskTTL;
  }

  /** A retry that waits for its ETA is not doomed when it comes back. */
  lemma RetryIsNotDoomed(w: World, retry: Signature, back: Time)
    requires Due(retry, back) && !SkipsDelay(retry) && retry.name in w.registered
    ensures !Doomed(w, retry, back)
  {
    TTLIs(retry, back);
    hide GetTaskTTL, CheckTaskTimeout, RetryInterval;
  }
}
