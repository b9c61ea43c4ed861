/** What every copy of a task keeps of the signature that was submitted, and how the counters of a
    copy add up. Everything here is about one copy and the step it takes. */
module Lineage {
  import opened Tasks
  import opened Backoff
  import opened Wire
  import opened Broker
  import opened RetryRule
  import opened Protocol

  /** A signature that has been over the wire and so survives it unchanged. */
  predicate Settled(sig: Signature) {
    Marshals(sig) && Normal(sig) == sig
  }

  /** `sig` is `first` except for the fields a hop may change. */
  predicate Descends(first: Signature, sig: Signature, timedOut: bool) {
    && Settled(sig)
    && sig == first.(retriesDone := sig.retriesDone, eta := sig.eta, routingKey := sig.routingKey,
                     taskTimeOut := if timedOut then 0 else first.taskTimeOut)
    && first.retriesDone <= sig.retriesDone
    && (first.retriesDone < sig.retriesDone ==> sig.retriesDone <= first.retryCount)
  }

  predicate Stamped(sig: Signature) {
    Marshals(sig) && sig.uuid != "" && sig.createdAt.Some?
  }

  /** The next signature in memory, by the reason it is sent for. */
  predicate Outgoing(cfg: Config, sig: Signature, out: Signature, why: Origin) {
    match why
    case Submitted => false
    case Retried =>
      && !Exhausted(sig) && out.eta.Some?
      && out == sig.(retriesDone := sig.retriesDone + 1, routingKey := cfg.delayedQueue, eta := out.eta)
    case Stalled => !Exhausted(sig) && RetryInterval(sig.retriesDone + 1) <= 0 && out == sig
    case OutOfRetries => Exhausted(sig) && cfg.failedQueue != "" && out == sig.(routingKey := cfg.failedQueue)
    case TimedOut => cfg.timeoutQueue != "" && out == sig.(taskTimeOut := 0, routingKey := cfg.timeoutQueue)
  }

  /** A copy that may still be run: it has not been moved to the failed or the timeout queue. */
  predicate Live(origin: Origin) {
    origin.Submitted? || origin.Retried? || origin.Stalled?
  }

  /** Where a copy goes that is not to be run again. */
  function LastQueue(cfg: Config, origin: Origin): string {
    if origin.OutOfRetries? then cfg.failedQueue else cfg.timeoutQueue
  }

  function Queues(cfg: Config): set<string> {
    {cfg.taskQueue, cfg.delayedQueue, cfg.failedQueue, cfg.timeoutQueue}
  }

  predicate PhaseFits(cfg: Config, sig: Signature, c: Copy) {
    && (c.phase.Queued? ==> c.phase.queue in Queues(cfg))
    && (!Live(c.origin) ==> c.phase.Gone? || c.phase == Queued(LastQueue(cfg, c.origin)))
    && (c.origin.Retried? && c.phase.Queued? ==> c.phase.queue in {cfg.taskQueue, cfg.delayedQueue})
    && (c.phase.Running? ==> c.phase.sig == sig)
    && (c.phase.Sending? ==> Outgoing(cfg, sig, c.phase.out, c.phase.why))
    && (c.phase.Settling? && c.phase.verdict.Complete? ==> c.phase.ran)
  }

  /** The last execution counted in `runs` has no later copy to its name. */
  function Open(c: Copy): nat {
    if c.origin.OutOfRetries? || c.phase.Ran() || c.phase.Done? then 1 else 0
  }

  /** Executions started are retries done, plus executions whose delivery came back, plus retries
      that advanced nothing, plus the one this copy stands for. */
  predicate Accounted(first: Signature, sig: Signature, c: Copy) {
    c.phase.Superseded? || c.phase.Gone?
    || c.runs == sig.retriesDone - first.retriesDone + c.lost + c.stalls + Open(c)
  }

  /** A retry stalls only past the exact range of the back-off. */
  predicate StallsExplained(first: Signature, sig: Signature, c: Copy) {
    c.stalls > 0 && first.retriesDone >= 0 ==>
      sig.retriesDone >= LAST_EXACT_RETRY && first.retryCount > LAST_EXACT_RETRY
  }

  /** The message of a submission carries its priority, and so does every later one, unless the priority
      was lost with the headers. */
  predicate CarriesPriority(submitted: Signature, c: Copy) {
    c.msg.priority == if UsesHeaders(submitted) && !c.origin.Submitted? then 0 else submitted.priority
  }

  predicate LineageInv(cfg: Config, submitted: Signature, c: Copy) {
    && Stamped(submitted)
    && CarriesPriority(submitted, c)
    && Received(c.msg).Ok?
    && var first, sig := Normal(submitted), Received(c.msg).value;
    && Descends(first, sig, c.origin.TimedOut?)
    && (c.origin.OutOfRetries? ==> Exhausted(sig))
    && PhaseFits(cfg, sig, c)
    && Accounted(first, sig, c)
    && StallsExplained(first, sig, c)
  }

  lemma StampIsSettled(sig: Signature, uuid: string, now: Time)
    requires Stamped(sig)
    ensures Stamp(sig, uuid, now) == sig
  {
  }

  /** The hop itself: an outgoing signature comes back from the wire as a descendant. */
  lemma OutgoingDescends(cfg: Config, first: Signature, sig: Signature, out: Signature, why: Origin)
    requires Descends(first, sig, false) && Stamped(sig) && Outgoing(cfg, sig, out, why)
    ensures Stamped(out)
    ensures Descends(first, Normal(out), why.TimedOut?)
    ensures Normal(out).retriesDone == out.retriesDone && Normal(out).taskTimeOut == out.taskTimeOut
    ensures out.eta.None? ==> Normal(out).eta.None?
    ensures out.eta.Some? ==> Normal(out).eta.Some? && Normal(out).eta.value <= out.eta.value
    ensures Normal(out).routingKey in {"", out.routingKey}
  {
    NormalIsIdempotent(out);
    if out.eta.Some? {
      FloorIsIdempotent(out.eta.value);
    }
  }

  lemma FirstDescends(submitted: Signature)
    requires Marshals(submitted)
    ensures Descends(Normal(submitted), Normal(submitted), false)
  {
    NormalIsIdempotent(submitted);
  }

  lemma SubmittedCopy(w: World, sig: Signature, uuid: string, now: Time, task: nat)
    requires uuid != ""
    ensures var stamped := Stamp(sig, uuid, now);
      var published := Publish(w.cfg, stamped, now);
      published.Ok? ==>
        var stored := Stored(w, task, published.value.sent, now, Submitted, 0, 0, 0);
        Stamped(stamped) && (stored.Some? ==> LineageInv(w.cfg, stamped, stored.value))
  {
    var stamped := Stamp(sig, uuid, now);
    PublishedIsReceived(w.cfg, stamped, now);
    if Marshals(stamped) {
      FirstDescends(stamped);
    }
  }

  lemma BeginKeepsLineage(w: World, submitted: Signature, c: Copy, now: Time)
    requires LineageInv(w.cfg, submitted, c) && c.phase.Delivered?
    ensures LineageInv(w.cfg, submitted, BeginCopy(w, c, now))
    ensures BeginCopy(w, c, now).phase.Running? ==> !CheckTaskTimeout(Normal(submitted), now)
  {
    hide Decode, Normal;
  }

  lemma FinishKeepsLineage(w: World, submitted: Signature, c: Copy, report: Report, now: Time)
    requires LineageInv(w.cfg, submitted, c) && c.phase.Running?
    ensures LineageInv(w.cfg, submitted, FinishCopy(w, c, report, now))
  {
    hide Decode, Normal, Fibonacci;
  }

  lemma SentKeepsLineage(w: World, submitted: Signature, c: Copy, uuid: string, now: Time, confirm: Confirm, next: nat)
    requires LineageInv(w.cfg, submitted, c) && c.phase.Sending?
    ensures LineageInv(w.cfg, submitted, SentCopy(w, c, uuid, now, confirm, next))
  {
    hide Decode, Normal, RetryInterval;
  }

  /** What goes out is the signature in memory; its key is the one it carries, if it carries one. */
  lemma RepublishedForm(w: World, submitted: Signature, c: Copy, uuid: string, now: Time)
    requires LineageInv(w.cfg, submitted, c) && c.phase.Sending?
    ensures var out := c.phase.out;
      && Stamped(out)
      && Republished(w, c, uuid, now) == Publish(w.cfg, out, now)
      && Republished(w, c, uuid, now).Ok?
      && var sent := Republished(w, c, uuid, now).value.sent;
      && Received(sent.msg) == Ok(Normal(out))
      && (out.routingKey != "" ==> sent.key == out.routingKey)
  {
    var first, sig, out := Normal(submitted), Received(c.msg).value, c.phase.out;
    OutgoingDescends(w.cfg, first, sig, out, c.phase.why);
    StampIsSettled(out, uuid, now);
    PublishedIsReceived(w.cfg, out, now);
  }

  lemma NormalPriority(sig: Signature)
    ensures Normal(sig).priority == if UsesHeaders(sig) then 0 else sig.priority
  {
  }

  /** The copy a republish stores descends from the submission, and its counters add up. */
  lemma SuccessorLineage(w: World, submitted: Signature, c: Copy, uuid: string, now: Time)
    requires ValidConfig(w.cfg)
    requires LineageInv(w.cfg, submitted, c) && c.phase.Sending? && SuccessorOf(w, c, uuid, now).Some?
    ensures LineageInv(w.cfg, submitted, SuccessorOf(w, c, uuid, now).value)
  {
    NormalPriority(submitted);
    hide Decode, Prepare, RetryInterval, Normal;
    var first, sig, out := Normal(submitted), Received(c.msg).value, c.phase.out;
    RepublishedForm(w, submitted, c, uuid, now);
    OutgoingDescends(w.cfg, first, sig, out, c.phase.why);
    SuccessorAddsUp(w.cfg, first, sig, c, SuccessorOf(w, c, uuid, now).value);
  }

  lemma SuccessorAddsUp(cfg: Config, first: Signature, sig: Signature, c: Copy, successor: Copy)
    requires Descends(first, sig, false) && c.phase.Sending? && Outgoing(cfg, sig, c.phase.out, c.phase.why)
    requires Live(c.origin) && Accounted(first, sig, c) && StallsExplained(first, sig, c)
    requires successor.phase.Queued? && successor.origin == c.phase.why
    requires successor.runs == c.runs && successor.lost == c.lost
    requires successor.stalls == c.stalls + if c.phase.why.Stalled? then 1 else 0
    ensures Accounted(first, c.phase.out, successor)
    ensures StallsExplained(first, c.phase.out, successor)
  {
    if c.phase.why.Stalled? && first.retriesDone >= 0 {
      NoDelayMeansOverflow(sig.retriesDone + 1);
    }
  }

  lemma SettleKeepsLineage(w: World, submitted: Signature, c: Copy)
    requires LineageInv(w.cfg, submitted, c) && c.phase.Settling?
    ensures LineageInv(w.cfg, submitted, SettledCopy(w, c))
  {
    hide Decode, Normal, RetryInterval;
  }

  lemma RequeueKeepsLineage(w: World, submitted: Signature, c: Copy)
    requires LineageInv(w.cfg, submitted, c) && c.phase.Held()
    ensures LineageInv(w.cfg, submitted, Requeued(w, c))
    ensures LineageInv(w.cfg, submitted, GivenBack(w, c))
  {
    hide Decode, Normal, RetryInterval;
  }

  lemma ExpireKeepsLineage(w: World, submitted: Signature, c: Copy)
    requires ValidConfig(w.cfg)
    requires LineageInv(w.cfg, submitted, c) && c.phase.Queued?
    ensures LineageInv(w.cfg, submitted, ExpiredCopy(w, c))
  {
  }
}
