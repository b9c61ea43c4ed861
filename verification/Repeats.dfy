/** The bound on executions is met: runs that start a task as often as it allows. */
module Repeats {
  import opened Tasks
  import opened Backoff
  import opened Wire
  import opened Broker
  import opened RetryRule
  import opened Protocol
  import opened Lineage
  import opened Safety
  import opened Losses
  import opened Tallies

  /** May be run at any time, and be retried as often as is left. */
  predicate Patient(w: World, sig: Signature) {
    && Stamped(sig) && Settled(sig) && Exact(sig)
    && sig.name in w.registered && sig.taskTimeOut == 0
  }

  predicate CopyIs(s: System, id: nat, phase: Phase, sig: Signature) {
    && id in s.copies && s.copies[id].task == 0 && s.copies[id].phase == phase && s.copies[id].twin.None?
    && Received(s.copies[id].msg) == Ok(sig)
  }

  /** Ready to be delivered, and nothing is in the delayed queue. */
  predicate Ready(w: World, s: System, id: nat, sig: Signature) {
    CopyIs(s, id, Queued(w.cfg.taskQueue), sig) && s.copies[id].expiresAt.None? && Clear(w.cfg, s)
  }

  predicate Clear(cfg: Config, s: System) {
    forall i :: i in s.copies ==> s.copies[i].phase != Queued(cfg.delayedQueue)
  }

  /** Alone in the delayed queue, and not expired. */
  predicate Waits(w: World, s: System, id: nat, sig: Signature) {
    && CopyIs(s, id, Queued(w.cfg.delayedQueue), sig)
    && s.copies[id].expiresAt.Some? && s.clock <= s.copies[id].expiresAt.value
    && forall i :: i in s.copies && i != id ==> s.copies[i].phase != Queued(w.cfg.delayedQueue)
  }

  /** A run goes on with no more than a number of executions and doublings of the task, and leaves all
      copies alone but one and those it makes. */
  predicate GoesOn(w: World, clock: Time, steps: seq<Step>, s: System, steps': seq<Step>, s': System, id: nat,
                   starts: nat, doubles: nat)
  {
    && Reaches(w, clock, steps', s') && s.clock <= s'.clock && s'.submitted == s.submitted
    && CountStarts(s'.started, 0) == CountStarts(s.started, 0) + starts
    && (var t, t' := TallyAfter(w, clock, steps, 0), TallyAfter(w, clock, steps', 0);
        t'.doubles == t.doubles + doubles && t'.lost == t.lost)
    && (forall i :: i in s.copies && i != id ==> i in s'.copies && s'.copies[i] == s.copies[i])
  }

  lemma TakeTallied(w: World, clock: Time, steps: seq<Step>, s: System, step: Step, task: nat)
    requires Reaches(w, clock, steps, s) && Enabled(w, s, step)
    ensures Reaches(w, clock, steps + [step], Apply(w, s, step))
    ensures TallyAfter(w, clock, steps + [step], task) == Tallied(TallyAfter(w, clock, steps, task), s, step, task)
  {
    Take(w, clock, steps, s, step);
    assert (steps + [step])[..|steps|] == steps;
  }

  lemma Starts(w: World, clock: Time, steps: seq<Step>, s: System, id: nat, sig: Signature)
    returns (steps': seq<Step>, s': System)
    requires Reaches(w, clock, steps, s) && Ready(w, s, id, sig) && Patient(w, sig)
    ensures GoesOn(w, clock, steps, s, steps', s', id, 1, 0) && CopyIs(s', id, Running(sig), sig) && Clear(w.cfg, s')
    ensures s'.copies[id].expiresAt.None?
  {
    assert !CheckTaskTimeout(sig, s.clock) && sig.name in w.registered;
    hide Received, CheckTaskTimeout, CountStarts, Patient, TallyAfter, Reaches;
    TakeTallied(w, clock, steps, s, Deliver(id), 0);
    steps', s' := steps + [Deliver(id)], Apply(w, s, Deliver(id));
    steps', s' := Begins(w, clock, steps', s', id, sig);
  }

  lemma Begins(w: World, clock: Time, steps: seq<Step>, s: System, id: nat, sig: Signature)
    returns (steps': seq<Step>, s': System)
    requires Reaches(w, clock, steps, s) && CopyIs(s, id, Delivered, sig) && s.copies[id].expiresAt.None?
    requires !CheckTaskTimeout(sig, s.clock) && sig.name in w.registered && Clear(w.cfg, s)
    ensures GoesOn(w, clock, steps, s, steps', s', id, 1, 0) && CopyIs(s', id, Running(sig), sig) && Clear(w.cfg, s')
    ensures s'.copies[id].expiresAt.None?
  {
    hide Received, CheckTaskTimeout, CountStarts, TallyAfter, Reaches;
    CountOfStart(s.started, Start(0, s.clock), 0);
    TakeTallied(w, clock, steps, s, Begin(id), 0);
    steps', s' := steps + [Begin(id)], Apply(w, s, Begin(id));
  }

  lemma Fails(w: World, clock: Time, steps: seq<Step>, s: System, id: nat, sig: Signature)
    returns (steps': seq<Step>, s': System, out: Signature)
    requires NamedQueues(w.cfg) && Reaches(w, clock, steps, s) && CopyIs(s, id, Running(sig), sig)
    requires Clear(w.cfg, s) && s.copies[id].expiresAt.None?
    ensures GoesOn(w, clock, steps, s, steps', s', id, 0, 0) && CopyIs(s', id, Sending(out, RetryOrigin(sig)), sig)
    ensures Clear(w.cfg, s') && s'.copies[id].expiresAt.None?
    ensures out == RetryPlan(w.cfg, sig, s'.clock).signature
  {
    hide Received, CountStarts, TallyAfter, Reaches, RetryOrigin, Exhausted, RetryInterval;
    out := RetryPlan(w.cfg, sig, s.clock).signature;
    TakeTallied(w, clock, steps, s, Finish(id, Errored), 0);
    steps', s' := steps + [Finish(id, Errored)], Apply(w, s, Finish(id, Errored));
  }

  /** A retry that is published at once waits in the delayed queue. */
  lemma RetryIs(w: World, sig: Signature, now: Time)
    requires NamedQueues(w.cfg) && Patient(w, sig) && !Exhausted(sig)
    ensures RetryOrigin(sig) == Retried
    ensures var out := RetryPlan(w.cfg, sig, now).signature;
      && out.routingKey == w.cfg.delayedQueue && GetTaskTTL(out, now) > 0
      && Patient(w, Normal(out)) && RetriesLeft(Normal(out)) == RetriesLeft(sig) - 1
  {
    IntervalExact(sig.retriesDone + 1);
    hide RetryInterval, Normal;
    var out := RetryPlan(w.cfg, sig, now).signature;
    OutgoingDescends(w.cfg, sig, sig, out, Retried);
  }

  lemma Sends(w: World, clock: Time, steps: seq<Step>, s: System, id: nat, sig: Signature, out: Signature)
    returns (steps': seq<Step>, s': System, next: nat)
    requires NamedQueues(w.cfg) && clock >= 0 && Reaches(w, clock, steps, s) && Patient(w, sig)
    requires CopyIs(s, id, Sending(out, RetryOrigin(sig)), sig) && out == RetryPlan(w.cfg, sig, s.clock).signature
    requires Clear(w.cfg, s) && s.copies[id].expiresAt.None?
    ensures GoesOn(w, clock, steps, s, steps', s', id, 0, 0)
    ensures CopyIs(s', id, Settling(Forwarded(next), true), sig) && next !in s.copies && s'.copies[id].expiresAt.None?
    ensures if Exhausted(sig) then Clear(w.cfg, s') else Waits(w, s', next, Normal(out))
  {
    hide Inv, LineageInv, Normal, Received, Republished, SuccessorOf, TallyAfter, Reaches, NamedQueues, CountStarts,
         RetryPlan, RetryInterval, Exhausted, GetTaskTTL, Patient;
    ReachableInv(w, clock, steps, s);
    NumbersAreFresh(w, s, id);
    next := s.nextCopy;
    var c, submitted := s.copies[id], s.submitted[0].sig;
    assert Republished(w, c, "task", s.clock).Ok? by {
      RepublishedForm(w, submitted, c, "task", s.clock);
    }
    if !Exhausted(sig) {
      RetryIs(w, sig, s.clock);
      DelayedKey(w.cfg);
      SuccessorIs(w, submitted, c, s.clock, w.cfg.delayedQueue);
    } else {
      LastIs(w.cfg, sig, s.clock);
      SuccessorIs(w, submitted, c, s.clock, w.cfg.failedQueue);
    }
    var step := Republish(id, "task", Confirmed);
    TakeTallied(w, clock, steps, s, step, 0);
    steps', s' := steps + [step], Apply(w, s, step);
  }

  lemma LastIs(cfg: Config, sig: Signature, now: Time)
    requires NamedQueues(cfg) && Exhausted(sig)
    ensures RetryOrigin(sig) == OutOfRetries && RetryPlan(cfg, sig, now).signature.routingKey == cfg.failedQueue
    ensures cfg.failedQueue !in {"", cfg.delayedQueue} && QueueFor(cfg, cfg.failedQueue) == Some(cfg.failedQueue)
  {
  }

  lemma DelayedKey(cfg: Config)
    requires NamedQueues(cfg)
    ensures cfg.delayedQueue != "" && QueueFor(cfg, cfg.delayedQueue) == Some(cfg.delayedQueue)
  {
  }

  lemma Settles(w: World, clock: Time, steps: seq<Step>, s: System, id: nat, sig: Signature, next: nat)
    returns (steps': seq<Step>, s': System)
    requires Reaches(w, clock, steps, s) && CopyIs(s, id, Settling(Forwarded(next), true), sig) && Clear(w.cfg, s)
    ensures GoesOn(w, clock, steps, s, steps', s', id, 0, 0) && Clear(w.cfg, s')
  {
    hide Received, TallyAfter, Reaches, CountStarts;
    TakeTallied(w, clock, steps, s, Settle(id), 0);
    steps', s' := steps + [Settle(id)], Apply(w, s, Settle(id));
  }

  /** The worker is lost after the confirm and before the acknowledgement. */
  lemma IsGivenBack(w: World, clock: Time, steps: seq<Step>, s: System, id: nat, sig: Signature, next: nat)
    returns (steps': seq<Step>, s': System)
    requires NamedQueues(w.cfg) && Reaches(w, clock, steps, s) && Clear(w.cfg, s)
    requires CopyIs(s, id, Settling(Forwarded(next), true), sig) && s.copies[id].expiresAt.None?
    ensures GoesOn(w, clock, steps, s, steps', s', id, 0, 1) && Ready(w, s', id, sig)
  {
    hide Received, TallyAfter, Reaches, CountStarts;
    TakeTallied(w, clock, steps, s, GiveBack(id), 0);
    steps', s' := steps + [GiveBack(id)], Apply(w, s, GiveBack(id));
  }

  lemma Returns(w: World, clock: Time, steps: seq<Step>, s: System, id: nat, sig: Signature)
    returns (steps': seq<Step>, s': System)
    requires NamedQueues(w.cfg) && Reaches(w, clock, steps, s) && Waits(w, s, id, sig)
    ensures GoesOn(w, clock, steps, s, steps', s', id, 0, 0) && Ready(w, s', id, sig)
  {
    hide Decode, TallyAfter, Reaches, CountStarts;
    var expiry := Tick(s.copies[id].expiresAt.value);
    TakeTallied(w, clock, steps, s, expiry, 0);
    steps', s' := steps + [expiry], Apply(w, s, expiry);
    TakeTallied(w, clock, steps', s', Expire(id), 0);
    steps', s' := steps' + [Expire(id)], Apply(w, s', Expire(id));
  }

  /** The copy fails and its successor is confirmed. */
  lemma FailsOnce(w: World, clock: Time, steps: seq<Step>, s: System, id: nat, sig: Signature)
    returns (steps': seq<Step>, s': System, next: nat, retry: Signature)
    requires NamedQueues(w.cfg) && clock >= 0 && Reaches(w, clock, steps, s) && Patient(w, sig)
    requires Ready(w, s, id, sig)
    ensures GoesOn(w, clock, steps, s, steps', s', id, 1, 0)
    ensures CopyIs(s', id, Settling(Forwarded(next), true), sig) && next !in s.copies && s'.copies[id].expiresAt.None?
    ensures if Exhausted(sig) then Clear(w.cfg, s')
            else Waits(w, s', next, retry) && Patient(w, retry) && RetriesLeft(retry) == RetriesLeft(sig) - 1
  {
    hide Patient, Reaches, NamedQueues, Normal, CountStarts, TallyAfter, Exhausted, RetryOrigin, Received, RetryPlan,
         RetriesLeft;
    var out;
    steps', s' := Starts(w, clock, steps, s, id, sig);
    steps', s', out := Fails(w, clock, steps', s', id, sig);
    retry := Normal(out);
    if !Exhausted(sig) {
      RetryIs(w, sig, s'.clock);
    }
    steps', s', next := Sends(w, clock, steps', s', id, sig, out);
  }

  lemma ExhaustedIff(w: World, sig: Signature)
    requires Patient(w, sig)
    ensures Exhausted(sig) <==> RetriesLeft(sig) == 0
  {
  }

  /** A queued copy is run, and retried until no retry is left. */
  lemma {:induction false} RunsOut(w: World, clock: Time, steps: seq<Step>, s: System, id: nat, sig: Signature)
    returns (steps': seq<Step>, s': System)
    requires NamedQueues(w.cfg) && clock >= 0 && Reaches(w, clock, steps, s) && Patient(w, sig)
    requires Ready(w, s, id, sig)
    ensures GoesOn(w, clock, steps, s, steps', s', id, RetriesLeft(sig) + 1, 0) && Clear(w.cfg, s')
    decreases RetriesLeft(sig), 0
  {
    hide Patient, Reaches, NamedQueues, CountStarts, TallyAfter, Received;
    var next, retry;
    ExhaustedIff(w, sig);
    steps', s', next, retry := FailsOnce(w, clock, steps, s, id, sig);
    if !Exhausted(sig) {
      steps', s' := RetriesOut(w, clock, steps', s', next, retry);
    }
    steps', s' := Settles(w, clock, steps', s', id, sig, next);
  }

  /** So is one that waits for its retry. */
  lemma {:induction false} RetriesOut(w: World, clock: Time, steps: seq<Step>, s: System, id: nat, sig: Signature)
    returns (steps': seq<Step>, s': System)
    requires NamedQueues(w.cfg) && clock >= 0 && Reaches(w, clock, steps, s) && Patient(w, sig)
    requires Waits(w, s, id, sig)
    ensures GoesOn(w, clock, steps, s, steps', s', id, RetriesLeft(sig) + 1, 0) && Clear(w.cfg, s')
    decreases RetriesLeft(sig), 1
  {
    hide Patient, Reaches, NamedQueues, CountStarts, TallyAfter, Received, RetriesLeft;
    steps', s' := Returns(w, clock, steps, s, id, sig);
    steps', s' := RunsOut(w, clock, steps', s', id, sig);
  }

  /** Each time the worker of a forwarded copy is lost, that copy and its successor both go on. */
  lemma {:induction false} RunsOutDoubled(w: World, clock: Time, steps: seq<Step>, s: System, id: nat, sig: Signature,
                                          doubles: nat)
    returns (steps': seq<Step>, s': System)
    requires NamedQueues(w.cfg) && clock >= 0 && Reaches(w, clock, steps, s) && Patient(w, sig)
    requires Ready(w, s, id, sig)
    ensures GoesOn(w, clock, steps, s, steps', s', id, (RetriesLeft(sig) + 1) * (1 + doubles), doubles)
    decreases doubles
  {
    hide Patient, Reaches, NamedQueues, CountStarts, TallyAfter, Received;
    if doubles == 0 {
      steps', s' := RunsOut(w, clock, steps, s, id, sig);
    } else {
      var next, retry;
      ExhaustedIff(w, sig);
      steps', s', next, retry := FailsOnce(w, clock, steps, s, id, sig);
      if !Exhausted(sig) {
        steps', s' := RetriesOut(w, clock, steps', s', next, retry);
      }
      steps', s' := IsGivenBack(w, clock, steps', s', id, sig, next);
      steps', s' := RunsOutDoubled(w, clock, steps', s', id, sig, doubles - 1);
      var each := RetriesLeft(sig) + 1;
      assert each * (1 + doubles) == each * doubles + each;
    }
  }

  /** A submission to the task queue without a schedule or a deadline. */
  predicate Plain(w: World, sub: Submission) {
    && Stamped(sub.sig) && sub.at >= 0 && sub.sig.name in w.registered && sub.sig.routingKey == ""
    && sub.sig.eta.None? && sub.sig.taskTimeOut == 0 && Exact(Normal(sub.sig))
  }

  lemma PlainIsPatient(w: World, sub: Submission)
    requires Plain(w, sub)
    ensures Patient(w, Normal(sub.sig)) && sub.at >= 0
  {
    NormalIsIdempotent(sub.sig);
  }

  lemma PlainStarts(w: World, sub: Submission) returns (steps: seq<Step>, s: System)
    requires NamedQueues(w.cfg) && Plain(w, sub)
    ensures Reaches(w, sub.at, steps, s) && Ready(w, s, 0, Normal(sub.sig))
    ensures s.submitted == map[0 := sub] && CountStarts(s.started, 0) == 0
    ensures TallyAfter(w, sub.at, steps, 0) == NOTHING
  {
    steps, s := SubmitFirst(w, sub);
    assert steps[..0] == [];
    hide Decode, Prepare, Normal, Stamped;
  }

  /** The bound on executions is met for every number of retries up to 49 and of doublings. */
  lemma StartsBoundIsMet(w: World, sub: Submission, doubles: nat) returns (steps: seq<Step>, s: System)
    requires NamedQueues(w.cfg) && Plain(w, sub)
    ensures Reaches(w, sub.at, steps, s) && s.submitted == map[0 := sub]
    ensures var first, t := Normal(sub.sig), TallyAfter(w, sub.at, steps, 0);
      && t.doubles == doubles && t.lost == 0
      && CountStarts(s.started, 0) == (RetriesLeft(first) + 1) * (1 + doubles)
  {
    hide Plain, Patient, Ready, Reaches, NamedQueues, CountStarts, TallyAfter, Normal, RetriesLeft;
    steps, s := PlainStarts(w, sub);
    PlainIsPatient(w, sub);
    var first := Normal(sub.sig);
    steps, s := RunsOutDoubled(w, sub.at, steps, s, 0, first, doubles);
  }
}
