/** What holds in every reachable state of the step system, read off its invariant. */
module Guarantees {
  import opened GoInt
  import opened Tasks
  import opened Backoff
  import opened Wire
  import opened Broker
  import opened RetryRule
  import opened Protocol
  import opened Lineage
  import opened Prospects
  import opened Safety
  import opened Tallies

  /** The copy that stands for its task: every other one has been, or is being, replaced, or its
      message has been delivered again as another. */
  predicate Stands(c: Copy) {
    !c.phase.Superseded? && !(c.phase.Settling? && c.phase.verdict.Forwarded?) && c.twin.None?
  }

  /** Stored in one of the four queues, delivered and unsettled, or finished with success. */
  predicate Kept(cfg: Config, c: Copy) {
    || (c.phase.Queued? && c.phase.queue in Queues(cfg))
    || c.phase.Held()
    || c.phase.Done?
  }

  /** Replacements lead to a copy that stands. */
  lemma {:induction false} Successor(w: World, s: System, id: nat) returns (last: nat)
    requires Inv(w, s) && id in s.copies && WellFormed(w, s.submitted[s.copies[id].task])
    ensures last in s.copies && s.copies[last].task == s.copies[id].task && Stands(s.copies[last])
    decreases s.nextCopy - id
  {
    hide LineageInv, SafeCopy, WellFormed, CheckTaskTimeout;
    var c := s.copies[id];
    assert CopyInv(w, s, id, c);
    last := id;
    if !Stands(c) {
      var next := if c.twin.Some? then c.twin.value
                  else if c.phase.Superseded? then c.phase.next
                  else c.phase.verdict.next;
      assert CopyInv(w, s, next, s.copies[next]);
      last := Successor(w, s, next);
    }
  }

  /** No accepted task is lost: through crashes, requeues and publishes that were stored but reported
      as errors, a well-formed task always has a copy that stands for it and is kept. */
  lemma NoTaskIsLost(w: World, clock: Time, steps: seq<Step>, s: System, task: nat) returns (id: nat)
    requires NamedQueues(w.cfg) && Reaches(w, clock, steps, s) && clock >= 0
    requires task in s.accepted && task in s.submitted && WellFormed(w, s.submitted[task])
    ensures id in s.copies && s.copies[id].task == task
    ensures Stands(s.copies[id]) && Kept(w.cfg, s.copies[id])
  {
    ReachableInv(w, clock, steps, s);
    assert HasCopy(s, task);
    var first :| first in s.copies && s.copies[first].task == task;
    id := Successor(w, s, first);
    var c := s.copies[id];
    assert CopyInv(w, s, id, c);
    StandingIsKept(w, s.submitted[task], c, s.clock);
  }

  lemma StandingIsKept(w: World, sub: Submission, c: Copy, now: Time)
    requires LineageInv(w.cfg, sub.sig, c) && SafeCopy(w, sub, c, now) && Stands(c)
    ensures Kept(w.cfg, c)
  {
    hide Hopeful, Timely, KeepsExpiration;
  }

  // ---- Deadlines

  /** Truncating the creation time to seconds makes the deadline earlier, by less than a second. */
  lemma TruncationIsEarly(sig: Signature, now: Time)
    requires UsesHeaders(sig) ==> FitsInt32(sig.taskTimeOut)
    ensures CheckTaskTimeout(sig, now) ==> CheckTaskTimeout(Normal(sig), now)
    ensures CheckTaskTimeout(Normal(sig), now) ==> CheckTaskTimeout(sig, now + SECOND)
  {
  }

  /** No execution starts at or after the submitted creation time plus the submitted timeout, over
      all retries and redeliveries. A timeout too long for a duration never passes. */
  lemma NoLateStart(w: World, clock: Time, steps: seq<Step>, s: System, start: Start)
    requires NamedQueues(w.cfg) && Reaches(w, clock, steps, s) && clock >= 0 && start in s.started
    ensures start.task in s.submitted
    ensures var sig := s.submitted[start.task].sig;
      (UsesHeaders(sig) ==> FitsInt32(sig.taskTimeOut)) && sig.taskTimeOut != 0
      && sig.taskTimeOut * SECOND <= MAX_INT64 && sig.createdAt.Some? ==>
        start.at < sig.createdAt.value + sig.taskTimeOut * SECOND
  {
    ReachableInv(w, clock, steps, s);
    assert StartedInTime(w, s, start);
    var sig := s.submitted[start.task].sig;
    if UsesHeaders(sig) ==> FitsInt32(sig.taskTimeOut) {
      TruncationIsEarly(sig, start.at);
    }
  }

  /** A delivery goes to the timeout queue exactly when the task has a timeout, in the range of a duration,
      and a creation time, and the one has passed since the other. Otherwise it is started, if it is
      registered. */
  lemma TimesOutIff(w: World, c: Copy, now: Time)
    requires NamedQueues(w.cfg) && c.phase.Delivered? && Received(c.msg).Ok?
    requires MIN_INT64 < Received(c.msg).value.taskTimeOut * SECOND
    ensures var sig, phase := Received(c.msg).value, BeginCopy(w, c, now).phase;
      var late := sig.taskTimeOut != 0 && sig.taskTimeOut * SECOND <= MAX_INT64 && sig.createdAt.Some?
                  && sig.createdAt.value + sig.taskTimeOut * SECOND <= now;
      && (late <==> phase.Sending?)
      && (phase.Sending? ==> phase.why.TimedOut? && phase.out.routingKey == w.cfg.timeoutQueue)
      && (phase.Running? <==> !late && sig.name in w.registered)
  {
    hide Received;
  }

  /** A task is moved to the timeout queue only after its deadline, less the truncation to seconds in
      header form, and never times out again there. */
  lemma TimedOutOnlyWhenLate(w: World, clock: Time, steps: seq<Step>, s: System, id: nat)
    requires NamedQueues(w.cfg) && Reaches(w, clock, steps, s) && clock >= 0
    requires id in s.copies && s.copies[id].origin.TimedOut?
    ensures var c := s.copies[id];
      && c.task in s.submitted && Received(c.msg).Ok?
      && CheckTaskTimeout(Normal(s.submitted[c.task].sig), s.clock)
      && (forall now :: !CheckTaskTimeout(Received(c.msg).value, now))
    ensures var sig := s.submitted[s.copies[id].task].sig;
      (UsesHeaders(sig) ==> FitsInt32(sig.taskTimeOut)) && MIN_INT64 < sig.taskTimeOut * SECOND ==>
        && sig.taskTimeOut != 0 && sig.createdAt.Some?
        && sig.createdAt.value + sig.taskTimeOut * SECOND <= s.clock + if UsesHeaders(sig) then SECOND - 1 else 0
  {
    ReachableInv(w, clock, steps, s);
    assert CopyInv(w, s, id, s.copies[id]);
  }

  // ---- Identity and accounting

  /** Every copy of a task carries what was submitted, after one trip over the wire, except for the
      retry counter, the ETA, the routing key and a cleared timeout. */
  lemma IdentityIsKept(w: World, clock: Time, steps: seq<Step>, s: System, id: nat)
    requires NamedQueues(w.cfg) && Reaches(w, clock, steps, s) && clock >= 0 && id in s.copies
    ensures var c := s.copies[id];
      c.task in s.submitted && Received(c.msg).Ok?
      && var submitted, sig := s.submitted[c.task].sig, Received(c.msg).value;
      && Descends(Normal(submitted), sig, c.origin.TimedOut?)
      && sig.uuid == submitted.uuid != "" && sig.name == submitted.name
      && sig.createdAt.Some? && sig.createdAt == Normal(submitted).createdAt
  {
    ReachableInv(w, clock, steps, s);
    assert CopyInv(w, s, id, s.copies[id]);
  }

  /** The broker gets the submitted priority with the submission, and with every later message of a task
      that travels as a document. In header form the priority is lost on the way, and every later message
      has none. */
  lemma PriorityIsCarried(w: World, clock: Time, steps: seq<Step>, s: System, id: nat)
    requires NamedQueues(w.cfg) && Reaches(w, clock, steps, s) && clock >= 0 && id in s.copies
    ensures var c := s.copies[id];
      c.task in s.submitted
      && var submitted := s.submitted[c.task].sig;
      && (c.origin.Submitted? || !UsesHeaders(submitted) ==> c.msg.priority == submitted.priority)
      && (!c.origin.Submitted? && UsesHeaders(submitted) ==> c.msg.priority == 0)
  {
    ReachableInv(w, clock, steps, s);
    assert CopyInv(w, s, id, s.copies[id]);
  }

  /** A queued copy is where its reason says: out of retries in the failed queue, timed out in the
      timeout queue, retried in the delayed queue or back in the task queue. */
  lemma QueuesFitReasons(w: World, clock: Time, steps: seq<Step>, s: System, id: nat)
    requires NamedQueues(w.cfg) && Reaches(w, clock, steps, s) && clock >= 0
    requires id in s.copies && s.copies[id].phase.Queued?
    ensures var c := s.copies[id];
      && (c.origin.OutOfRetries? ==> c.phase.queue == w.cfg.failedQueue && Received(c.msg).Ok?
                                     && Exhausted(Received(c.msg).value))
      && (c.origin.TimedOut? ==> c.phase.queue == w.cfg.timeoutQueue)
      && (c.origin.Retried? ==> c.phase.queue in {w.cfg.delayedQueue, w.cfg.taskQueue})
  {
    ReachableInv(w, clock, steps, s);
    assert CopyInv(w, s, id, s.copies[id]);
  }

  /** The executions on the way to one copy are its retries done, plus those on that way whose delivery
      came back, plus the stalled retries, plus the one it is in or ended with. Stalls need more than 49
      retries. */
  lemma RunsAddUp(w: World, clock: Time, steps: seq<Step>, s: System, id: nat)
    requires NamedQueues(w.cfg) && Reaches(w, clock, steps, s) && clock >= 0 && id in s.copies
    requires !s.copies[id].phase.Superseded? && !s.copies[id].phase.Gone?
    ensures var c := s.copies[id];
      c.task in s.submitted && Received(c.msg).Ok?
      && var first, sig := Normal(s.submitted[c.task].sig), Received(c.msg).value;
      && c.runs == sig.retriesDone - first.retriesDone + c.lost + c.stalls + Open(c)
      && (first.retriesDone >= 0 && first.retryCount <= LAST_EXACT_RETRY ==> c.stalls == 0)
  {
    ReachableInv(w, clock, steps, s);
    assert CopyInv(w, s, id, s.copies[id]);
  }

  /** On the way to any one copy of a task that allows at most 49 retries there is at most one execution
      more than retries were left, not counting those that were put back, and exactly that many to a copy
      in the failed queue, which has its counter at the limit. Copies that a fault made from one count for
      themselves; the task's executions in the log are bounded by `Executions.StartsAreBounded`. */
  lemma RunsAreBounded(w: World, clock: Time, steps: seq<Step>, s: System, id: nat)
    requires NamedQueues(w.cfg) && Reaches(w, clock, steps, s) && clock >= 0 && id in s.copies
    requires !s.copies[id].phase.Superseded? && !s.copies[id].phase.Gone?
    requires s.copies[id].task in s.submitted && Exact(Normal(s.submitted[s.copies[id].task].sig))
    ensures var c := s.copies[id];
      var first := Normal(s.submitted[c.task].sig);
      && c.runs <= RetriesLeft(first) + 1 + c.lost
      && (c.origin.OutOfRetries? ==>
            && c.runs == RetriesLeft(first) + 1 + c.lost
            && Received(c.msg).Ok? && Received(c.msg).value.retriesDone == first.retriesDone + RetriesLeft(first))
  {
    RunsAddUp(w, clock, steps, s, id);
    assert CopyInv(w, s, id, s.copies[id]) by {
      ReachableInv(w, clock, steps, s);
    }
  }

  // ---- Expirations

  /** In every state, a well-formed task's message carries an expiration only in the delayed queue. That
      of a retry is 1 to 10000 ms and does not end before its ETA less a millisecond; nor does any other
      when that of the submission does not. */
  lemma ExpirationsAreDelays(w: World, clock: Time, steps: seq<Step>, s: System, id: nat)
    requires NamedQueues(w.cfg) && Reaches(w, clock, steps, s) && clock >= 0 && id in s.copies
    requires s.copies[id].task in s.submitted && WellFormed(w, s.submitted[s.copies[id].task])
    ensures var c := s.copies[id];
      && Received(c.msg).Ok?
      && (c.expiresAt.Some? || c.msg.expiration.Some? ==> InDelay(w.cfg, c))
      && (c.msg.expiration.Some? ==> 1 <= c.msg.expiration.value)
      && (c.msg.expiration.Some? && c.origin.Retried? ==> c.msg.expiration.value <= 10_000)
      && (c.origin.Retried? || Due(s.submitted[c.task].sig, Back(s.submitted[c.task])) ==>
            && (c.expiresAt.Some? ==> Due(Received(c.msg).value, c.expiresAt.value))
            && (!InDelay(w.cfg, c) ==> Due(Received(c.msg).value, s.clock)))
  {
    ReachableInv(w, clock, steps, s);
    assert CopyInv(w, s, id, s.copies[id]);
    hide Inv, Hopeful, Received, WellFormed;
  }

  /** No execution of a scheduled task starts before its time-to-live is over, and so none a millisecond
      or more before its ETA, in the range of a duration and unless it trades its delay for priority. */
  lemma NoEarlyStart(w: World, clock: Time, steps: seq<Step>, s: System, start: Start)
    requires NamedQueues(w.cfg) && Reaches(w, clock, steps, s) && clock >= 0 && start in s.started
    ensures start.task in s.submitted
    ensures var sub := s.submitted[start.task];
      Scheduled(w.cfg, sub) ==>
        && Back(sub) <= start.at
        && (sub.sig.eta.Some? && !SkipsDelay(sub.sig) && sub.sig.eta.value - sub.at <= MAX_INT64 ==>
              sub.sig.eta.value - MILLISECOND < start.at)
  {
    ReachableInv(w, clock, steps, s);
    assert StartedInTime(w, s, start);
    var sub := s.submitted[start.task];
    if sub.sig.eta.Some? && !SkipsDelay(sub.sig) && sub.sig.eta.value - sub.at <= MAX_INT64 {
      BackIsDue(sub);
    }
    hide Inv, Back, CheckTaskTimeout;
  }

  // ---- What a confirmed submission is worth

  /** A submission the broker confirms is stored if and only if it has no key and no pending ETA, or a
      key some queue is bound to. Any other one is accepted without a copy anywhere. */
  lemma ConfirmedSubmissionIsStoredIff(w: World, s: System, task: nat, sig: Signature, uuid: string)
    requires NamedQueues(w.cfg) && Inv(w, s) && task !in s.submitted && uuid != ""
    requires Marshals(sig)
    ensures var s' := SubmitTask(w, s, task, sig, uuid, Confirmed);
      && task in s'.accepted
      && (HasCopy(s', task) <==>
            if sig.routingKey == "" then GetTaskTTL(Stamp(sig, uuid, s.clock), s.clock) <= 0
            else QueueFor(w.cfg, sig.routingKey).Some?)
  {
    var stamped := Stamp(sig, uuid, s.clock);
    PublishedIsReceived(w.cfg, stamped, s.clock);
    var s' := SubmitTask(w, s, task, sig, uuid, Confirmed);
    hide LineageInv, SafeCopy, WellFormed, CheckTaskTimeout, Decode, Prepare, Normal, GetTaskTTL;
    forall id | id in s.copies ensures s.copies[id].task != task {
      assert CopyInv(w, s, id, s.copies[id]);
    }
    assert s.nextCopy !in s.copies;
    var stored := Stored(w, task, Publish(w.cfg, stamped, s.clock).value.sent, s.clock, Submitted, 0, 0, 0);
    if stored.Some? {
      assert s'.copies[s.nextCopy].task == task;
    }
  }

  // ---- What was submitted

  /** `sent` is what the caller handed over at `now`, with an identity and a creation time filled in if
      there were none. */
  predicate IsFilledIn(sig: Signature, uuid: string, now: Time, sent: Signature) {
    && sent == sig.(uuid := sent.uuid, createdAt := sent.createdAt)
    && sent.uuid == (if sig.uuid != "" then sig.uuid else uuid)
    && sent.createdAt == (if sig.createdAt.Some? then sig.createdAt else Some(now))
  }

  /** The i-th step of a run submits a task, which is recorded as handed over at the time of the step. */
  predicate SubmitsAt(w: World, clock: Time, steps: seq<Step>, i: nat, task: nat, sub: Submission) {
    && i < |steps| && steps[i].Submit? && steps[i].task == task
    && var before := After(w, clock, steps[..i]);
    && before.Some? && sub.at == before.value.clock
    && IsFilledIn(steps[i].sig, steps[i].uuid, sub.at, sub.sig)
  }

  /** Every task of a run has been submitted by one of its steps, and is accepted exactly if the broker
      confirmed it. */
  lemma {:induction false} SubmittedOnce(w: World, clock: Time, steps: seq<Step>, s: System, task: nat) returns (i: nat)
    requires Reaches(w, clock, steps, s) && task in s.submitted
    ensures SubmitsAt(w, clock, steps, i, task, s.submitted[task])
    ensures task in s.accepted <==> steps[i].confirm == Confirmed
  {
    hide Publish, BeginCopy, FinishCopy, SettledCopy, GivenBack, ExpiredCopy, SentCopy, SuccessorOf, AtHead;
    var n := |steps| - 1;
    var before := After(w, clock, steps[..n]).value;
    if task in before.submitted {
      i := SubmittedOnce(w, clock, steps[..n], before, task);
      assert steps[..n][..i] == steps[..i];
    } else {
      if task in before.accepted {
        AcceptedIsSubmitted(w, clock, steps[..n], before, task);
      }
      i := n;
    }
  }

  lemma {:induction false} AcceptedIsSubmitted(w: World, clock: Time, steps: seq<Step>, s: System, task: nat)
    requires Reaches(w, clock, steps, s) && task in s.accepted
    ensures task in s.submitted
  {
    hide Publish, BeginCopy, FinishCopy, SettledCopy, GivenBack, ExpiredCopy, SentCopy, SuccessorOf, AtHead;
    var before := After(w, clock, steps[..|steps| - 1]).value;
    if task in before.accepted {
      AcceptedIsSubmitted(w, clock, steps[..|steps| - 1], before, task);
    }
  }

  /** And every step that submits a signature that can be marshalled is recorded for good. */
  lemma {:induction false} SubmitIsRecorded(w: World, clock: Time, steps: seq<Step>, s: System, i: nat)
    requires Reaches(w, clock, steps, s) && i < |steps| && steps[i].Submit? && Marshals(steps[i].sig)
    ensures steps[i].task in s.submitted && SubmitsAt(w, clock, steps, i, steps[i].task, s.submitted[steps[i].task])
  {
    var n, step := |steps| - 1, steps[|steps| - 1];
    var before := After(w, clock, steps[..n]).value;
    if i == n {
      PublishedIsReceived(w.cfg, Stamp(step.sig, step.uuid, before.clock), before.clock);
      hide Publish, Decode;
    } else {
      hide Publish, BeginCopy, FinishCopy, SettledCopy, GivenBack, ExpiredCopy, SentCopy, SuccessorOf, AtHead, Marshals;
      SubmitIsRecorded(w, clock, steps[..n], before, i);
      assert steps[..n][..i] == steps[..i];
    }
  }

  /** A task handed over without a creation time does not time out before the time of its submission plus
      its timeout, less the truncation to seconds in header form. */
  lemma UndatedTimesOutLate(w: World, clock: Time, steps: seq<Step>, s: System, i: nat, id: nat)
    requires NamedQueues(w.cfg) && Reaches(w, clock, steps, s) && clock >= 0
    requires i < |steps| && steps[i].Submit? && Marshals(steps[i].sig) && steps[i].sig.createdAt.None?
    requires id in s.copies && s.copies[id].task == steps[i].task && s.copies[id].origin.TimedOut?
    requires var sig := steps[i].sig;
      (UsesHeaders(sig) ==> FitsInt32(sig.taskTimeOut)) && MIN_INT64 < sig.taskTimeOut * SECOND
    ensures After(w, clock, steps[..i]).Some?
    ensures var sig, at := steps[i].sig, After(w, clock, steps[..i]).value.clock;
      sig.taskTimeOut != 0 && at + sig.taskTimeOut * SECOND <= s.clock + if UsesHeaders(sig) then SECOND - 1 else 0
  {
    SubmitIsRecorded(w, clock, steps, s, i);
    TimedOutOnlyWhenLate(w, clock, steps, s, id);
    hide Reaches, CheckTaskTimeout, Received, Normal, NamedQueues;
  }

  // ---- Priorities up to 1

  /** A task of a priority of at most 1 that is handed over without an ETA, to a queue, is well formed. */
  lemma CalmIsWellFormed(w: World, sub: Submission)
    requires sub.sig.priority <= 1 && sub.sig.eta.None? && Keyed(w.cfg, sub.sig) && sub.sig.name in w.registered
    ensures WellFormed(w, sub)
  {
    TTLIs(sub.sig, sub.at);
    TTLIs(Normal(sub.sig), Back(sub));
    hide GetTaskTTL, RetryInterval, CheckTaskTimeout;
  }

  /** Its delays are never traded: only its retries have an expiration, of 1 to 10000 ms, and only in the
      delayed queue; no message of it in the failed or the timeout queue has one. */
  lemma CalmExpirations(w: World, clock: Time, steps: seq<Step>, s: System, id: nat)
    requires NamedQueues(w.cfg) && Reaches(w, clock, steps, s) && clock >= 0 && id in s.copies
    requires s.copies[id].task in s.submitted
    requires var sig := s.submitted[s.copies[id].task].sig;
      sig.priority <= 1 && sig.eta.None? && Keyed(w.cfg, sig) && sig.name in w.registered
    ensures var c := s.copies[id];
      && (c.msg.expiration.Some? ==> InDelay(w.cfg, c) && 1 <= c.msg.expiration.value)
      && (c.origin.Retried? && c.msg.expiration.Some? ==> c.msg.expiration.value <= 10_000)
      && (c.origin.OutOfRetries? || c.origin.TimedOut? ==> c.msg.expiration.None? && c.expiresAt.None?)
  {
    CalmIsWellFormed(w, s.submitted[s.copies[id].task]);
    ExpirationsAreDelays(w, clock, steps, s, id);
    LastQueueIsNotDelayed(w, clock, steps, s, id);
  }

  lemma LastQueueIsNotDelayed(w: World, clock: Time, steps: seq<Step>, s: System, id: nat)
    requires NamedQueues(w.cfg) && Reaches(w, clock, steps, s) && clock >= 0 && id in s.copies
    ensures s.copies[id].origin.OutOfRetries? || s.copies[id].origin.TimedOut? ==> !InDelay(w.cfg, s.copies[id])
  {
    if s.copies[id].phase.Queued? {
      QueuesFitReasons(w, clock, steps, s, id);
    }
  }
}
