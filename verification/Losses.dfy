/** Which submissions are kept in every run, exactly: every other one is lost in some run. */
module Losses {
  import opened GoInt
  import opened Tasks
  import opened Backoff
  import opened Wire
  import opened Broker
  import opened RetryRule
  import opened Protocol
  import opened Lineage
  import opened Prospects
  import opened Safety
  import opened Guarantees

  predicate HasKeptCopy(cfg: Config, s: System, task: nat) {
    exists id :: id in s.copies && s.copies[id].task == task && Kept(cfg, s.copies[id])
  }

  /** A run from a clear start in which the task is accepted as submitted, and then no copy is kept. */
  predicate LosesIn(w: World, sub: Submission, steps: seq<Step>) {
    var s := After(w, sub.at, steps);
    s.Some? && s.value.accepted == {0} && s.value.submitted == map[0 := sub] && !HasKeptCopy(w.cfg, s.value, 0)
  }

  /** In every run in which the task is accepted as submitted, it has a kept copy from then on. */
  ghost predicate AlwaysKept(w: World, sub: Submission) {
    forall clock, steps, s, task ::
      clock >= 0 && Reaches(w, clock, steps, s)
      && task in s.accepted && task in s.submitted && s.submitted[task] == sub ==>
        HasKeptCopy(w.cfg, s, task)
  }

  // ---- Building runs

  lemma Take(w: World, clock: Time, steps: seq<Step>, s: System, step: Step)
    requires Reaches(w, clock, steps, s) && Enabled(w, s, step)
    ensures Reaches(w, clock, steps + [step], Apply(w, s, step))
  {
    assert (steps + [step])[..|steps|] == steps;
  }

  lemma SubmitFirst(w: World, sub: Submission) returns (steps: seq<Step>, s: System)
    requires Stamped(sub.sig)
    ensures Publish(w.cfg, sub.sig, sub.at).Ok?
    ensures Received(Publish(w.cfg, sub.sig, sub.at).value.sent.msg) == Ok(Normal(sub.sig))
    ensures steps == [Submit(0, sub.sig, "task", Confirmed)] && Reaches(w, sub.at, steps, s)
    ensures var sent := Publish(w.cfg, sub.sig, sub.at).value.sent;
      var stored := Stored(w, 0, sent, sub.at, Submitted, 0, 0, 0);
      s == System(sub.at, map[0 := sub], {0}, if stored.Some? then map[0 := stored.value] else map[], 1, [])
  {
    var step := Submit(0, sub.sig, "task", Confirmed);
    PublishedIsReceived(w.cfg, sub.sig, sub.at);
    StampIsSettled(sub.sig, "task", sub.at);
    hide Decode, Prepare, Normal, Stamp;
    assert Reaches(w, sub.at, [], Initial(sub.at));
    Take(w, sub.at, [], Initial(sub.at), step);
    steps, s := [step], Apply(w, Initial(sub.at), step);
    assert [] + [step] == steps;
  }

  /** The republish is confirmed and the delivery acknowledged. */
  lemma SendOn(w: World, clock: Time, steps: seq<Step>, s: System, id: nat) returns (steps': seq<Step>, s': System)
    requires NamedQueues(w.cfg) && clock >= 0 && Reaches(w, clock, steps, s)
    requires id in s.copies && s.copies[id].phase.Sending? && s.copies[id].twin.None?
    requires SuccessorOf(w, s.copies[id], "task", s.clock).Some?
    ensures id < s.nextCopy && Reaches(w, clock, steps', s')
    ensures var successor := SuccessorOf(w, s.copies[id], "task", s.clock).value;
      var replaced := s.copies[id].(phase := Superseded(s.nextCopy));
      s' == s.(copies := s.copies[id := replaced][s.nextCopy := successor], nextCopy := s.nextCopy + 1)
  {
    hide LineageInv, SafeCopy, WellFormed, Late, Stored, Republished, Received, Linked;
    ReachableInv(w, clock, steps, s);
    assert CopyInv(w, s, id, s.copies[id]);
    var republish := Republish(id, "task", Confirmed);
    Take(w, clock, steps, s, republish);
    var sent := Apply(w, s, republish);
    Take(w, clock, steps + [republish], sent, Settle(id));
    steps', s' := steps + [republish] + [Settle(id)], Apply(w, sent, Settle(id));
  }

  /** A message that expires anywhere but in the delayed queue is dropped. */
  lemma DropExpired(w: World, sub: Submission, steps: seq<Step>, s: System, id: nat)
    returns (steps': seq<Step>, s': System)
    requires Reaches(w, sub.at, steps, s) && id in s.copies && s.copies[id].phase.Queued?
    requires s.copies[id].phase.queue != w.cfg.delayedQueue && AtHead(s, id)
    requires s.copies[id].expiresAt.Some? && s.clock <= s.copies[id].expiresAt.value
    ensures Reaches(w, sub.at, steps', s')
    ensures s'.accepted == s.accepted && s'.submitted == s.submitted
    ensures s'.copies == s.copies[id := s.copies[id].(phase := Gone)]
  {
    var expiry := Tick(s.copies[id].expiresAt.value);
    Take(w, sub.at, steps, s, expiry);
    steps', s' := steps + [expiry], Apply(w, s, expiry);
    Take(w, sub.at, steps', s', Expire(id));
    steps', s' := steps' + [Expire(id)], Apply(w, s', Expire(id));
  }

  /** What is stored for a copy that is sent on under its own key. */
  lemma SuccessorIs(w: World, submitted: Signature, c: Copy, now: Time, queue: string)
    requires LineageInv(w.cfg, submitted, c) && c.phase.Sending? && !c.phase.why.Stalled?
    requires c.phase.out.routingKey != "" && QueueFor(w.cfg, c.phase.out.routingKey) == Some(queue)
    ensures SuccessorOf(w, c, "task", now).Some?
    ensures var successor, ttl := SuccessorOf(w, c, "task", now).value, GetTaskTTL(c.phase.out, now);
      && successor.task == c.task && successor.phase == Queued(queue) && successor.twin.None?
      && Received(successor.msg) == Ok(Normal(c.phase.out))
      && successor.expiresAt == if ttl > 0 then Some(now + ttl * MILLISECOND) else None
  {
    RepublishedForm(w, submitted, c, "task", now);
    hide Decode, Prepare, Normal, GetTaskTTL, RetryInterval, Received, LineageInv, QueueFor;
  }

  lemma SendOnTo(w: World, sub: Submission, steps: seq<Step>, s: System, id: nat, queue: string)
    returns (steps': seq<Step>, s': System)
    requires NamedQueues(w.cfg) && sub.at >= 0 && Reaches(w, sub.at, steps, s)
    requires id in s.copies && s.copies[id].phase.Sending? && !s.copies[id].phase.why.Stalled?
    requires s.copies[id].twin.None?
    requires s.copies[id].phase.out.routingKey != ""
    requires QueueFor(w.cfg, s.copies[id].phase.out.routingKey) == Some(queue)
    ensures id < s.nextCopy && Reaches(w, sub.at, steps', s')
    ensures var out := s.copies[id].phase.out;
      var ttl := GetTaskTTL(out, s.clock);
      && s'.accepted == s.accepted && s'.submitted == s.submitted && s'.clock == s.clock
      && s'.nextCopy == s.nextCopy + 1 && s'.copies.Keys == s.copies.Keys + {s.nextCopy}
      && (forall i :: i in s.copies && i != id && i != s.nextCopy ==> s'.copies[i] == s.copies[i])
      && s'.copies[id].phase.Superseded?
      && s'.copies[s.nextCopy].phase == Queued(queue) && s'.copies[s.nextCopy].twin.None?
      && Received(s'.copies[s.nextCopy].msg) == Ok(Normal(out))
      && s'.copies[s.nextCopy].expiresAt == if ttl > 0 then Some(s.clock + ttl * MILLISECOND) else None
  {
    hide LineageInv, SafeCopy, WellFormed, Late, SuccessorOf, Received, Linked, GetTaskTTL, Normal;
    ReachableInv(w, sub.at, steps, s);
    assert CopyInv(w, s, id, s.copies[id]);
    SuccessorIs(w, s.submitted[s.copies[id].task].sig, s.copies[id], s.clock, queue);
    steps', s' := SendOn(w, sub.at, steps, s, id);
  }

  // ---- Not stored, or stored where nothing waits for the ETA

  /** A confirmed message whose key no queue is bound to is lost, and so is one with a time-to-live unless
      the delayed queue holds it: without a key no queue stores it, and from any other queue it is dropped
      when it expires. */
  lemma ScheduledElsewhereIsLost(w: World, sub: Submission) returns (steps: seq<Step>)
    requires NamedQueues(w.cfg) && Stamped(sub.sig) && !(Keyed(w.cfg, sub.sig) && Scheduled(w.cfg, sub))
    ensures LosesIn(w, sub, steps)
  {
    var s: System;
    steps, s := SubmitFirst(w, sub);
    var ttl := GetTaskTTL(sub.sig, sub.at);
    hide Decode, Prepare, GetTaskTTL, Received, Normal, Stamped;
    if QueueFor(w.cfg, sub.sig.routingKey).Some? {
      assert s.copies[0].phase.Queued? && s.copies[0].expiresAt == Some(sub.at + ttl * MILLISECOND);
      steps, s := DropExpired(w, sub, steps, s, 0);
    }
  }

  // ---- Delivered when doomed

  /** The submission is all there is. */
  predicate IsFirst(w: World, sub: Submission, s: System, phase: Phase, expiresAt: Option<Time>) {
    && s.accepted == {0} && s.submitted == map[0 := sub] && s.nextCopy == 1 && s.copies.Keys == {0}
    && var c := s.copies[0];
    && c.task == 0 && c.phase == phase && c.expiresAt == expiresAt && c.twin.None?
    && Received(c.msg) == Ok(Normal(sub.sig))
  }

  lemma FirstIsStored(w: World, sub: Submission) returns (steps: seq<Step>, s: System)
    requires NamedQueues(w.cfg) && Stamped(sub.sig) && Scheduled(w.cfg, sub) && ComesIn(w.cfg, sub)
    ensures Reaches(w, sub.at, steps, s) && s.clock == sub.at
    ensures if GetTaskTTL(sub.sig, sub.at) == 0 then IsFirst(w, sub, s, Queued(w.cfg.taskQueue), None)
            else IsFirst(w, sub, s, Queued(w.cfg.delayedQueue), Some(Back(sub)))
  {
    hide Publish, GetTaskTTL, Normal, Received, NamedQueues, Stored, QueueFor, Keyed, Scheduled, ComesIn, Reaches,
         Stamped, Decode;
    steps, s := SubmitFirst(w, sub);
    ComesInTo(w.cfg, sub);
    StampedMarshals(sub.sig);
    PublishStores(w, 0, sub.sig, sub.at, Submitted, 0, 0, 0);
  }

  lemma StampedMarshals(sig: Signature)
    requires Stamped(sig)
    ensures Marshals(sig)
  {
  }

  lemma ComesInTo(cfg: Config, sub: Submission)
    requires NamedQueues(cfg) && Scheduled(cfg, sub) && ComesIn(cfg, sub)
    ensures Keyed(cfg, sub.sig) && GetTaskTTL(sub.sig, sub.at) >= 0
    ensures sub.sig.routingKey == "" ==> GetTaskTTL(sub.sig, sub.at) == 0
    ensures QueueFor(cfg, if sub.sig.routingKey == "" then cfg.bindingKey else sub.sig.routingKey)
         == Some(if GetTaskTTL(sub.sig, sub.at) > 0 then cfg.delayedQueue else cfg.taskQueue)
  {
    TTLIs(sub.sig, sub.at);
    hide GetTaskTTL;
  }

  /** A submission that can be delivered is, as soon as its time-to-live is over. */
  lemma Arrives(w: World, sub: Submission) returns (steps: seq<Step>, s: System)
    requires NamedQueues(w.cfg) && Stamped(sub.sig) && Scheduled(w.cfg, sub) && ComesIn(w.cfg, sub)
    ensures Reaches(w, sub.at, steps, s) && IsFirst(w, sub, s, Queued(w.cfg.taskQueue), None) && s.clock == Back(sub)
  {
    steps, s := FirstIsStored(w, sub);
    TTLIs(sub.sig, sub.at);
    hide GetTaskTTL, Normal, Decode, Reaches, Scheduled, ComesIn;
    if GetTaskTTL(sub.sig, sub.at) > 0 {
      var back := Tick(Back(sub));
      Take(w, sub.at, steps, s, back);
      steps, s := steps + [back], Apply(w, s, back);
      Take(w, sub.at, steps, s, Expire(0));
      steps, s := steps + [Expire(0)], Apply(w, s, Expire(0));
    }
  }

  lemma DeliverAt(w: World, sub: Submission, steps: seq<Step>, s: System, at: Time)
    returns (steps': seq<Step>, s': System)
    requires Reaches(w, sub.at, steps, s) && IsFirst(w, sub, s, Queued(w.cfg.taskQueue), None) && s.clock <= at
    ensures Reaches(w, sub.at, steps', s') && s'.clock == at
    ensures IsFirst(w, sub, s', BeginCopy(w, s.copies[0], at).phase, None)
  {
    hide Decode, CheckTaskTimeout, Normal, Reaches, TimeoutPlan;
    Take(w, sub.at, steps, s, Tick(at));
    steps', s' := steps + [Tick(at)], Apply(w, s, Tick(at));
    Take(w, sub.at, steps', s', Deliver(0));
    steps', s' := steps' + [Deliver(0)], Apply(w, s', Deliver(0));
    Take(w, sub.at, steps', s', Begin(0));
    steps', s' := steps' + [Begin(0)], Apply(w, s', Begin(0));
  }

  lemma FailAt(w: World, sub: Submission, steps: seq<Step>, s: System, at: Time) returns (steps': seq<Step>, s': System)
    requires NamedQueues(w.cfg)
    requires Reaches(w, sub.at, steps, s) && IsFirst(w, sub, s, Queued(w.cfg.taskQueue), None) && s.clock <= at
    requires sub.sig.name in w.registered && !CheckTaskTimeout(Normal(sub.sig), at)
    ensures Reaches(w, sub.at, steps', s') && s'.clock == at
    ensures var first := Normal(sub.sig);
      IsFirst(w, sub, s', Sending(RetryPlan(w.cfg, first, at).signature, RetryOrigin(first)), None)
  {
    assert Normal(sub.sig).name == sub.sig.name;
    steps', s' := DeliverAt(w, sub, steps, s, at);
    hide Received, CheckTaskTimeout, Normal, Reaches, RetryOrigin, RetryInterval, Exhausted, DistinctQueues;
    Take(w, sub.at, steps', s', Finish(0, Errored));
    steps', s' := steps' + [Finish(0, Errored)], Apply(w, s', Finish(0, Errored));
  }

  /** All earlier copies have been replaced. */
  predicate IsLast(sub: Submission, s: System, id: nat) {
    && s.accepted == {0} && s.submitted == map[0 := sub] && id in s.copies && id < s.nextCopy && s.copies[id].twin.None?
    && forall i :: i in s.copies && i != id ==> s.copies[i].phase.Superseded?
  }

  /** What is sent with a time-to-live to a queue other than the delayed one is dropped. */
  lemma SentIsDropped(w: World, sub: Submission, steps: seq<Step>, s: System, id: nat, queue: string)
    returns (steps': seq<Step>)
    requires NamedQueues(w.cfg) && sub.at >= 0 && Reaches(w, sub.at, steps, s) && IsLast(sub, s, id)
    requires s.copies[id].phase.Sending? && !s.copies[id].phase.why.Stalled?
    requires s.copies[id].phase.out.routingKey != "" && queue != w.cfg.delayedQueue
    requires QueueFor(w.cfg, s.copies[id].phase.out.routingKey) == Some(queue)
    requires GetTaskTTL(s.copies[id].phase.out, s.clock) > 0
    ensures LosesIn(w, sub, steps')
  {
    hide Received, Normal, GetTaskTTL, Reaches, QueueFor, NamedQueues;
    var last, s' := s.nextCopy, s;
    steps', s' := SendOnTo(w, sub, steps, s, id, queue);
    steps', s' := DropExpired(w, sub, steps', s', last);
    LostIs(w, sub, steps', s');
  }

  lemma LostIs(w: World, sub: Submission, steps: seq<Step>, s: System)
    requires Reaches(w, sub.at, steps, s) && s.accepted == {0} && s.submitted == map[0 := sub]
    requires forall i :: i in s.copies ==> s.copies[i].phase.Superseded? || s.copies[i].phase.Gone?
    ensures LosesIn(w, sub, steps)
  {
  }

  lemma LastKeys(cfg: Config)
    requires NamedQueues(cfg)
    ensures QueueFor(cfg, cfg.failedQueue) == Some(cfg.failedQueue)
    ensures QueueFor(cfg, cfg.timeoutQueue) == Some(cfg.timeoutQueue)
    ensures QueueFor(cfg, cfg.delayedQueue) == Some(cfg.delayedQueue)
    ensures cfg.delayedQueue !in {"", cfg.failedQueue, cfg.timeoutQueue, cfg.taskQueue}
  {
  }

  /** It times out a millisecond before its ETA, and its message expires in the timeout queue. */
  lemma EarlyTimeoutIsLost(w: World, sub: Submission, steps: seq<Step>, s: System) returns (steps': seq<Step>)
    requires NamedQueues(w.cfg) && sub.at >= 0
    requires Reaches(w, sub.at, steps, s) && IsFirst(w, sub, s, Queued(w.cfg.taskQueue), None)
    requires var first := Normal(sub.sig);
      !Due(first, s.clock) && CheckTaskTimeout(first, first.eta.value - MILLISECOND)
    ensures LosesIn(w, sub, steps')
  {
    var first := Normal(sub.sig);
    var s' := s;
    steps', s' := DeliverAt(w, sub, steps, s, first.eta.value - MILLISECOND);
    var out := TimeoutPlan(w.cfg, first).signature;
    assert GetTaskTTL(out, s'.clock) > 0;
    hide Received, CheckTaskTimeout, Normal, Reaches, GetTaskTTL, QueueFor, LosesIn;
    LastKeys(w.cfg);
    steps' := SentIsDropped(w, sub, steps', s', 0, w.cfg.timeoutQueue);
  }

  lemma UnregisteredIsLost(w: World, sub: Submission, steps: seq<Step>, s: System) returns (steps': seq<Step>)
    requires NamedQueues(w.cfg)
    requires Reaches(w, sub.at, steps, s) && IsFirst(w, sub, s, Queued(w.cfg.taskQueue), None)
    requires sub.sig.name !in w.registered && !CheckTaskTimeout(Normal(sub.sig), s.clock)
    ensures LosesIn(w, sub, steps')
  {
    assert Normal(sub.sig).name == sub.sig.name;
    var s' := s;
    steps', s' := DeliverAt(w, sub, steps, s, s.clock);
    hide Received, CheckTaskTimeout, Normal;
    Take(w, sub.at, steps', s', Settle(0));
    steps' := steps' + [Settle(0)];
  }

  /** It fails with no retries left, and its message expires in the failed queue. */
  lemma ExpiringFailureIsLost(w: World, sub: Submission, steps: seq<Step>, s: System) returns (steps': seq<Step>)
    requires NamedQueues(w.cfg) && sub.at >= 0
    requires Reaches(w, sub.at, steps, s) && IsFirst(w, sub, s, Queued(w.cfg.taskQueue), None)
    requires sub.sig.name in w.registered && !CheckTaskTimeout(Normal(sub.sig), s.clock)
    requires Exhausted(Normal(sub.sig)) && GetTaskTTL(Normal(sub.sig), s.clock) > 0
    ensures LosesIn(w, sub, steps')
  {
    var first := Normal(sub.sig);
    var s' := s;
    steps', s' := FailAt(w, sub, steps, s, s.clock);
    var out := RetryPlan(w.cfg, first, s.clock).signature;
    assert GetTaskTTL(out, s'.clock) > 0 && out.routingKey == w.cfg.failedQueue;
    assert RetryOrigin(first) == OutOfRetries;
    hide Received, CheckTaskTimeout, Normal, Reaches, GetTaskTTL, RetryPlan, RetryOrigin, QueueFor, LosesIn;
    LastKeys(w.cfg);
    steps' := SentIsDropped(w, sub, steps', s', 0, w.cfg.failedQueue);
  }

  /** A message with a time-to-live and no key is stored nowhere. */
  lemma KeylessIsNotStored(w: World, submitted: Signature, c: Copy, now: Time)
    requires NamedQueues(w.cfg) && LineageInv(w.cfg, submitted, c) && c.phase.Sending?
    requires c.phase.out.routingKey == "" && GetTaskTTL(c.phase.out, now) > 0
    ensures Republished(w, c, "task", now).Ok? && SuccessorOf(w, c, "task", now).None?
  {
    RepublishedForm(w, submitted, c, "task", now);
    hide LineageInv, Prepare, GetTaskTTL, Normal, Received;
  }

  /** It fails on retry 50 with its ETA ahead, and is published without a key. */
  lemma EarlyStallIsLost(w: World, sub: Submission, steps: seq<Step>, s: System) returns (steps': seq<Step>)
    requires NamedQueues(w.cfg) && sub.at >= 0
    requires Reaches(w, sub.at, steps, s) && IsFirst(w, sub, s, Queued(w.cfg.taskQueue), None)
    requires sub.sig.name in w.registered && !CheckTaskTimeout(Normal(sub.sig), s.clock)
    requires var first := Normal(sub.sig);
      !Exhausted(first) && !Retriable(first) && first.routingKey == "" && GetTaskTTL(first, s.clock) > 0
    ensures LosesIn(w, sub, steps')
  {
    var first := Normal(sub.sig);
    assert RetryPlan(w.cfg, first, s.clock) == Send(first);
    hide Inv, Received, CheckTaskTimeout, Normal, Reaches, GetTaskTTL, RetryPlan, RetryOrigin, SuccessorOf, Republished,
         LosesIn, LineageInv;
    var s' := s;
    steps', s' := FailAt(w, sub, steps, s, s.clock);
    FirstIsLast(w, sub, s', s'.copies[0].phase);
    ReachableInv(w, sub.at, steps', s');
    FirstLineage(w, s', 0);
    KeylessIsNotStored(w, sub.sig, s'.copies[0], s'.clock);
    steps' := SentNowhere(w, sub, steps', s', 0);
  }

  lemma SentNowhere(w: World, sub: Submission, steps: seq<Step>, s: System, id: nat) returns (steps': seq<Step>)
    requires Reaches(w, sub.at, steps, s) && IsLast(sub, s, id) && s.copies[id].phase.Sending?
    requires Republished(w, s.copies[id], "task", s.clock).Ok? && SuccessorOf(w, s.copies[id], "task", s.clock).None?
    ensures LosesIn(w, sub, steps')
  {
    hide Reaches, SuccessorOf, Republished, LosesIn;
    var republish := Republish(id, "task", Confirmed);
    Take(w, sub.at, steps, s, republish);
    var s' := Apply(w, s, republish);
    Take(w, sub.at, steps + [republish], s', Settle(id));
    steps' := steps + [republish] + [Settle(id)];
    LostIs(w, sub, steps', Apply(w, s', Settle(id)));
  }

  lemma FirstIsLast(w: World, sub: Submission, s: System, phase: Phase)
    requires IsFirst(w, sub, s, phase, None)
    ensures IsLast(sub, s, 0)
  {
    hide Received;
  }

  lemma FirstLineage(w: World, s: System, id: nat)
    requires Inv(w, s) && id in s.copies
    ensures s.copies[id].task in s.submitted
    ensures LineageInv(w.cfg, s.submitted[s.copies[id].task].sig, s.copies[id])
  {
    hide LineageInv, SafeCopy, WellFormed, CheckTaskTimeout;
    assert CopyInv(w, s, id, s.copies[id]);
  }

  // ---- Hurried

  /** The last moment before the start deadline of a task that has not passed it. */
  lemma LastMoment(sig: Signature, at: Time) returns (last: Time)
    requires sig.taskTimeOut != 0 && sig.taskTimeOut * SECOND <= MAX_INT64 && sig.createdAt.Some?
    requires !CheckTaskTimeout(sig, at)
    ensures at <= last && !CheckTaskTimeout(sig, last) && forall now :: last < now ==> CheckTaskTimeout(sig, now)
  {
    last := sig.createdAt.value + sig.taskTimeOut * SECOND - 1;
  }

  /** The retry expires in the delayed queue and is found to be late. */
  lemma ReturnLate(w: World, sub: Submission, steps: seq<Step>, s: System, id: nat, at: Time)
    returns (steps': seq<Step>, s': System)
    requires NamedQueues(w.cfg) && Reaches(w, sub.at, steps, s) && s.clock <= at
    requires id in s.copies && InDelay(w.cfg, s.copies[id]) && AtHead(s, id) && s.copies[id].expiresAt == Some(at)
    requires var received := Received(s.copies[id].msg); received.Ok? && CheckTaskTimeout(received.value, at)
    ensures Reaches(w, sub.at, steps', s')
    ensures var sig := Received(s.copies[id].msg).value;
      && s'.accepted == s.accepted && s'.submitted == s.submitted && s'.clock == at && s'.nextCopy == s.nextCopy
      && s'.copies.Keys == s.copies.Keys && (forall i :: i in s.copies && i != id ==> s'.copies[i] == s.copies[i])
      && s'.copies[id].task == s.copies[id].task && s'.copies[id].twin == s.copies[id].twin
      && s'.copies[id].phase == Sending(TimeoutPlan(w.cfg, sig).signature, TimedOut)
  {
    hide Decode, CheckTaskTimeout, RetryInterval;
    Take(w, sub.at, steps, s, Tick(at));
    steps', s' := steps + [Tick(at)], Apply(w, s, Tick(at));
    Take(w, sub.at, steps', s', Expire(id));
    steps', s' := steps' + [Expire(id)], Apply(w, s', Expire(id));
    Take(w, sub.at, steps', s', Deliver(id));
    steps', s' := steps' + [Deliver(id)], Apply(w, s', Deliver(id));
    Take(w, sub.at, steps', s', Begin(id));
    steps', s' := steps' + [Begin(id)], Apply(w, s', Begin(id));
  }

  lemma HurriedRetry(cfg: Config, sig: Signature, last: Time)
    requires NamedQueues(cfg) && Settled(sig) && Stamped(sig)
    requires Retriable(sig) && SkipsDelay(sig) && 0 <= sig.retriesDone <= LAST_EXACT_RETRY
    requires CheckTaskTimeout(sig, last + 5 * MILLISECOND)
    ensures RetryOrigin(sig) == Retried
    ensures var retry := RetryPlan(cfg, sig, last).signature;
      && Normal(retry) == retry && retry.routingKey == cfg.delayedQueue
      && GetTaskTTL(retry, last) == 5 && CheckTaskTimeout(retry, last + 5 * MILLISECOND)
      && retry.eta.Some? && retry.eta.value >= last + SECOND
  {
    assert !UsesHeaders(sig);
    if sig.retriesDone == LAST_EXACT_RETRY {
      IntervalWrapsAt50(sig.retriesDone + 1);
    } else {
      IntervalExact(sig.retriesDone + 1);
    }
    hide RetryInterval;
  }

  /** The ETA of the retry is still ahead when its message is published to the timeout queue. */
  lemma StillAhead(cfg: Config, retry: Signature, now: Time)
    requires retry.eta.Some? && retry.eta.value >= now + MILLISECOND
    ensures cfg.timeoutQueue != "" ==> GetTaskTTL(TimeoutPlan(cfg, retry).signature, now) > 0
  {
  }

  /** A task that trades its delays for priority fails just before its deadline. */
  lemma HurriedFails(w: World, sub: Submission, steps: seq<Step>, s: System)
    returns (steps': seq<Step>, s': System, retry: Signature)
    requires NamedQueues(w.cfg) && IsHurried(w, sub, steps, s)
    ensures Reaches(w, sub.at, steps', s') && IsFirst(w, sub, s', Sending(retry, Retried), None)
    ensures Normal(retry) == retry && retry.routingKey == w.cfg.delayedQueue && GetTaskTTL(retry, s'.clock) == 5
    ensures CheckTaskTimeout(retry, s'.clock + 5 * MILLISECOND)
    ensures retry.eta.Some? && retry.eta.value >= s'.clock + SECOND
  {
    var first := Normal(sub.sig);
    var last := LastMoment(first, s.clock);
    HurriedRetry(w.cfg, first, last);
    retry := RetryPlan(w.cfg, first, last).signature;
    hide Received, CheckTaskTimeout, Normal, Reaches, GetTaskTTL, RetryPlan, RetryOrigin, Settled, Stamped, Retriable,
         NamedQueues;
    steps', s' := FailAt(w, sub, steps, s, last);
  }

  predicate IsHurried(w: World, sub: Submission, steps: seq<Step>, s: System) {
    var first := Normal(sub.sig);
    && Reaches(w, sub.at, steps, s) && IsFirst(w, sub, s, Queued(w.cfg.taskQueue), None)
    && sub.sig.name in w.registered && !CheckTaskTimeout(first, s.clock)
    && Settled(first) && Stamped(first) && Retriable(first) && SkipsDelay(first)
    && 0 <= first.retriesDone <= LAST_EXACT_RETRY && first.taskTimeOut * SECOND <= MAX_INT64
  }

  /** It comes back from its retry after 5 ms, late and with the ETA still ahead. */
  lemma HurriedIsLost(w: World, sub: Submission, steps: seq<Step>, s: System) returns (steps': seq<Step>)
    requires NamedQueues(w.cfg) && sub.at >= 0 && IsHurried(w, sub, steps, s)
    ensures LosesIn(w, sub, steps')
  {
    hide Received, CheckTaskTimeout, Normal, Reaches, GetTaskTTL, QueueFor, LosesIn, NamedQueues, IsHurried;
    var s', retry;
    steps', s', retry := HurriedFails(w, sub, steps, s);
    var at := s'.clock + 5 * MILLISECOND;
    LastKeys(w.cfg);
    steps', s' := SendOnTo(w, sub, steps', s', 0, w.cfg.delayedQueue);
    steps' := LateRetryIsLost(w, sub, steps', s', retry, at);
  }

  /** A retry that comes back late, with its ETA ahead, is dropped from the timeout queue. */
  lemma LateRetryIsLost(w: World, sub: Submission, steps: seq<Step>, s: System, retry: Signature, at: Time)
    returns (steps': seq<Step>)
    requires NamedQueues(w.cfg) && sub.at >= 0 && Reaches(w, sub.at, steps, s) && s.clock <= at
    requires IsLast(sub, s, 1) && InDelay(w.cfg, s.copies[1]) && s.copies[1].expiresAt == Some(at)
    requires Received(s.copies[1].msg) == Ok(retry) && CheckTaskTimeout(retry, at)
    requires retry.eta.Some? && retry.eta.value >= at + MILLISECOND
    ensures LosesIn(w, sub, steps')
  {
    hide Received, CheckTaskTimeout, Reaches, GetTaskTTL, QueueFor, LosesIn, NamedQueues;
    var s' := s;
    steps', s' := ReturnLate(w, sub, steps, s, 1, at);
    StillAhead(w.cfg, retry, s'.clock);
    LastKeys(w.cfg);
    NamedTimeout(w.cfg);
    steps' := SentIsDropped(w, sub, steps', s', 1, w.cfg.timeoutQueue);
  }

  lemma NamedTimeout(cfg: Config)
    requires NamedQueues(cfg)
    ensures cfg.timeoutQueue != ""
  {
  }

  // ---- Main result

  /** A hurried task that may be retried has an exact delay, and a deadline in the range of a duration. */
  predicate InRange(sig: Signature) {
    Retriable(sig) && SkipsDelay(sig) ==>
      0 <= sig.retriesDone <= LAST_EXACT_RETRY && sig.taskTimeOut * SECOND <= MAX_INT64
  }

  lemma DoomedIsLost(w: World, sub: Submission) returns (steps: seq<Step>)
    requires NamedQueues(w.cfg) && Stamped(sub.sig) && sub.at >= 0
    requires InRange(Normal(sub.sig))
    requires Scheduled(w.cfg, sub) && ComesIn(w.cfg, sub) && Doomed(w, Normal(sub.sig), Back(sub))
    ensures LosesIn(w, sub, steps)
  {
    var first := Normal(sub.sig);
    var s: System;
    FirstDescends(sub.sig);
    StallsEarlyWithoutKey(w.cfg, sub);
    assert Stamped(first) && first.name == sub.sig.name;
    hide Received, CheckTaskTimeout, Normal, Reaches, GetTaskTTL, LosesIn, Settled, Stamped, RetryInterval;
    steps, s := Arrives(w, sub);
    if !Due(first, s.clock) && CheckTaskTimeout(first, first.eta.value - MILLISECOND) {
      steps := EarlyTimeoutIsLost(w, sub, steps, s);
    } else if sub.sig.name !in w.registered {
      steps := UnregisteredIsLost(w, sub, steps, s);
    } else if Retriable(first) {
      steps := HurriedIsLost(w, sub, steps, s);
    } else if Exhausted(first) {
      steps := ExpiringFailureIsLost(w, sub, steps, s);
    } else {
      steps := EarlyStallIsLost(w, sub, steps, s);
    }
  }

  /** What stalls with its ETA ahead, and did not come from the delayed queue by its own key, has none. */
  lemma StallsEarlyWithoutKey(cfg: Config, sub: Submission)
    requires Scheduled(cfg, sub) && ComesIn(cfg, sub)
    ensures var first := Normal(sub.sig);
      first.routingKey != cfg.delayedQueue && GetTaskTTL(first, Back(sub)) > 0 ==> first.routingKey == ""
  {
  }

  /** Exactly the well-formed submissions are always kept: any other one is lost in some run. */
  lemma AlwaysKeptIff(w: World, sub: Submission)
    requires NamedQueues(w.cfg) && Stamped(sub.sig) && sub.at >= 0
    requires InRange(Normal(sub.sig))
    ensures AlwaysKept(w, sub) <==> WellFormed(w, sub)
  {
    if WellFormed(w, sub) {
      WellFormedIsKept(w, sub);
    } else {
      var steps;
      hide Stamped, Keyed, Scheduled, ComesIn, Doomed, LosesIn;
      if Keyed(w.cfg, sub.sig) && Scheduled(w.cfg, sub) {
        steps := DoomedIsLost(w, sub);
      } else {
        steps := ScheduledElsewhereIsLost(w, sub);
      }
      LossIsNotKept(w, sub, steps);
    }
  }

  lemma LossIsNotKept(w: World, sub: Submission, steps: seq<Step>)
    requires LosesIn(w, sub, steps) && sub.at >= 0
    ensures !AlwaysKept(w, sub)
  {
    assert Reaches(w, sub.at, steps, After(w, sub.at, steps).value);
  }

  lemma WellFormedIsKept(w: World, sub: Submission)
    requires NamedQueues(w.cfg) && WellFormed(w, sub)
    ensures AlwaysKept(w, sub)
  {
    hide WellFormed, Kept;
    forall clock, steps, s, task |
      clock >= 0 && Reaches(w, clock, steps, s)
      && task in s.accepted && task in s.submitted && s.submitted[task] == sub
      ensures HasKeptCopy(w.cfg, s, task)
    {
      var id := NoTaskIsLost(w, clock, steps, s, task);
    }
  }
}
