/** No accepted task is lost, no execution starts past its deadline, and expirations are what the
    retry rule promises: what every step of every run keeps. */
module Safety {
  import opened GoInt
  import opened Tasks
  import opened Backoff
  import opened Wire
  import opened Broker
  import opened RetryRule
  import opened Protocol
  import opened Lineage
  import opened Prospects

  predicate NamedQueues(cfg: Config) {
    ValidConfig(cfg) && cfg.failedQueue != "" && cfg.timeoutQueue != ""
  }

  /** Empty, which becomes the default key, or a key some queue is bound to. */
  predicate Keyed(cfg: Config, sig: Signature) {
    sig.routingKey == "" || QueueFor(cfg, sig.routingKey).Some?
  }

  /** A submission the queue keeps: some queue is bound to its key, its time-to-live is waited for in the
      delayed queue, and it is not doomed when it comes to be delivered. */
  predicate WellFormed(w: World, sub: Submission) {
    && Keyed(w.cfg, sub.sig)
    && Scheduled(w.cfg, sub)
    && (ComesIn(w.cfg, sub) ==> !Doomed(w, Normal(sub.sig), Back(sub)))
  }

  predicate InDelay(cfg: Config, c: Copy) {
    c.phase == Queued(cfg.delayedQueue)
  }

  /** In the task queue or with a worker. */
  predicate InTransit(cfg: Config, c: Copy) {
    c.phase == Queued(cfg.taskQueue) || c.phase.Held()
  }

  predicate KeepsExpiration(cfg: Config, c: Copy) {
    && (c.expiresAt.Some? || c.msg.expiration.Some? ==> InDelay(cfg, c))
    && (c.msg.expiration.Some? ==> 1 <= c.msg.expiration.value)
    && (c.msg.expiration.Some? && c.origin.Retried? ==> c.msg.expiration.value <= MAX_DELAY / MILLISECOND)
  }

  /** A delivery finds the ETA passed. */
  predicate Timely(cfg: Config, sig: Signature, c: Copy, now: Time) {
    if InDelay(cfg, c) then (c.expiresAt.Some? ==> Due(sig, c.expiresAt.value)) else Due(sig, now)
  }

  /** No delivery of the copy, now or when it leaves the delayed queue, can lose the task. */
  predicate Hopeful(w: World, sig: Signature, c: Copy, now: Time) {
    && (InTransit(w.cfg, c) ==> !Doomed(w, sig, now))
    && (InDelay(w.cfg, c) && c.expiresAt.Some? ==> !Doomed(w, sig, c.expiresAt.value))
    && (c.phase.Running? ==> sig.name in w.registered && !Sinks(w.cfg, sig, now))
    && (c.phase.Sending? ==>
          && Sound(w.cfg, sig, c.phase.out, c.phase.why, now)
          && (!c.phase.why.TimedOut? ==> sig.name in w.registered))
  }

  predicate SafeCopy(w: World, sub: Submission, c: Copy, now: Time)
    requires Received(c.msg).Ok?
  {
    var sig := Received(c.msg).value;
    && !c.phase.Gone?
    && (c.phase.Settling? ==> !c.phase.verdict.Skipped? && !c.phase.verdict.Discard?)
    && Keyed(w.cfg, sig)
    && KeepsExpiration(w.cfg, c)
    && Hopeful(w, sig, c, now)
    && (c.origin.Retried? || Due(sub.sig, Back(sub)) ==> Timely(w.cfg, sig, c, now))
  }

  /** A scheduled submission is in no worker's reach before its time-to-live is over. */
  predicate Waited(cfg: Config, sub: Submission, c: Copy, now: Time) {
    Scheduled(cfg, sub) && Back(sub) > now ==>
      && c.phase.Queued? && c.phase.queue != cfg.taskQueue && c.origin.Submitted?
      && (c.expiresAt.Some? ==> Back(sub) <= c.expiresAt.value)
  }

  /** A task on its way to the timeout queue has passed its start deadline. */
  predicate Late(submitted: Signature, c: Copy, now: Time) {
    c.origin.TimedOut? || (c.phase.Sending? && c.phase.why.TimedOut?) ==> CheckTaskTimeout(Normal(submitted), now)
  }

  predicate IsNew(c: Copy) {
    c.phase.Queued? && c.twin.None?
  }

  predicate IsYounger(s: System, id: nat, c: Copy, next: nat) {
    id < next && next in s.copies && s.copies[next].task == c.task
  }

  /** A copy that was forwarded or delivered again has a younger copy of the same task. */
  predicate Linked(s: System, id: nat, c: Copy) {
    && (c.phase.Superseded? ==> IsYounger(s, id, c, c.phase.next))
    && (c.phase.Settling? && c.phase.verdict.Forwarded? ==> IsYounger(s, id, c, c.phase.verdict.next))
    && (c.twin.Some? ==> IsYounger(s, id, c, c.twin.value))
  }

  predicate InOrder(w: World, sub: Submission, c: Copy, now: Time) {
    LineageInv(w.cfg, sub.sig, c) && Late(sub.sig, c, now) && Waited(w.cfg, sub, c, now)
  }

  predicate CopyInv(w: World, s: System, id: nat, c: Copy) {
    && id < s.nextCopy
    && c.task in s.submitted
    && InOrder(w, s.submitted[c.task], c, s.clock)
    && (WellFormed(w, s.submitted[c.task]) ==> SafeCopy(w, s.submitted[c.task], c, s.clock) && Linked(s, id, c))
  }

  predicate StartedInTime(w: World, s: System, start: Start) {
    && start.task in s.submitted
    && !CheckTaskTimeout(Normal(s.submitted[start.task].sig), start.at)
    && (Scheduled(w.cfg, s.submitted[start.task]) ==> Back(s.submitted[start.task]) <= start.at)
  }

  predicate HasCopy(s: System, task: nat) {
    exists id :: id in s.copies && s.copies[id].task == task
  }

  ghost predicate Inv(w: World, s: System) {
    && s.clock >= 0
    && (forall id :: id in s.copies ==> CopyInv(w, s, id, s.copies[id]))
    && (forall start :: start in s.started ==> StartedInTime(w, s, start))
    && (forall task :: task in s.accepted ==> task in s.submitted)
    && (forall task :: task in s.accepted && WellFormed(w, s.submitted[task]) ==> HasCopy(s, task))
  }

  // ---- Safety of one copy

  lemma OutgoingIsKeyed(cfg: Config, sig: Signature, out: Signature, why: Origin)
    requires NamedQueues(cfg) && Keyed(cfg, sig) && Outgoing(cfg, sig, out, why)
    ensures Keyed(cfg, out) && Keyed(cfg, Normal(out))
    ensures !why.Stalled? ==> out.routingKey != ""
  {
  }

  lemma TimesOutDue(w: World, sig: Signature, now: Time)
    requires !Doomed(w, sig, now) && CheckTaskTimeout(sig, now)
    ensures Due(sig, now)
  {
    if !Due(sig, now) {
      LateStaysLate(sig, now, sig.eta.value - MILLISECOND);
    }
    hide CheckTaskTimeout;
  }

  lemma StartsSound(w: World, sig: Signature, now: Time)
    requires !Doomed(w, sig, now) && !CheckTaskTimeout(sig, now)
    ensures sig.name in w.registered && !Sinks(w.cfg, sig, now)
  {
  }

  lemma BeginKeepsSafety(w: World, sub: Submission, c: Copy, now: Time)
    requires NamedQueues(w.cfg) && Received(c.msg).Ok? && SafeCopy(w, sub, c, now) && c.phase.Delivered?
    ensures SafeCopy(w, sub, BeginCopy(w, c, now), now)
  {
    hide Received, CheckTaskTimeout, Sinks, Doomed;
    var sig := Received(c.msg).value;
    if CheckTaskTimeout(sig, now) {
      TimesOutDue(w, sig, now);
    } else {
      StartsSound(w, sig, now);
    }
  }

  lemma IntervalCapped(retryCount: Int64)
    ensures RetryInterval(retryCount) <= MAX_DELAY
  {
    hide Fibonacci;
  }

  /** A failure that does not sink is published soundly. */
  lemma FailsSound(cfg: Config, sig: Signature, now: Time)
    requires NamedQueues(cfg) && !Sinks(cfg, sig, now)
    ensures var plan := RetryPlan(cfg, sig, now);
      plan.Send? && Sound(cfg, sig, plan.signature, RetryOrigin(sig), now)
  {
    TTLIs(sig, now);
    if Retriable(sig) {
      IntervalCapped(sig.retriesDone + 1);
    }
    hide GetTaskTTL, RetryInterval;
  }

  lemma FinishKeepsSafety(w: World, sub: Submission, c: Copy, report: Report, now: Time)
    requires NamedQueues(w.cfg) && Received(c.msg).Ok? && SafeCopy(w, sub, c, now) && c.phase.Running?
    requires Received(c.msg).value == c.phase.sig
    ensures SafeCopy(w, sub, FinishCopy(w, c, report, now), now)
  {
    FailsSound(w.cfg, c.phase.sig, now);
    hide Received, Sinks, Doomed, Sound, RetryPlan;
  }

  /** What a sound publish stores is hopeful: it is parked for good, or it comes back undoomed. */
  lemma SuccessorIsHopeful(w: World, sig: Signature, out: Signature, why: Origin, now: Time, sig': Signature, c: Copy)
    requires NamedQueues(w.cfg) && Outgoing(w.cfg, sig, out, why) && Sound(w.cfg, sig, out, why, now)
    requires !Doomed(w, sig, now) && (!why.TimedOut? ==> sig.name in w.registered)
    requires sig'.name == sig.name && sig' == Normal(out) && (why.Stalled? ==> sig' == sig)
    requires sig'.priority == out.priority && sig'.taskTimeOut == out.taskTimeOut
    requires var ttl := GetTaskTTL(out, now);
      && c.phase.Queued? && c.expiresAt == (if ttl > 0 then Some(now + ttl * MILLISECOND) else None)
      && (out.routingKey != "" ==> Some(c.phase.queue) == QueueFor(w.cfg, out.routingKey))
    ensures Hopeful(w, sig', c, now)
  {
    OutgoingTTL(w.cfg, sig, out, why, now);
    if why.Stalled? {
      if c.expiresAt.Some? && Doomed(w, sig', c.expiresAt.value) {
        DoomedEarlier(w, sig, now, c.expiresAt.value);
      }
    }
    if why.Retried? && c.expiresAt.Some? {
      NormalIsEarlier(out, c.expiresAt.value);
      RetryIsNotDoomed(w, sig', c.expiresAt.value);
    }
    hide Doomed, Sinks, GetTaskTTL, CheckTaskTimeout, RetryInterval, Normal;
  }

  /** What a publish stores, by the key and the time-to-live. */
  predicate IsStored(cfg: Config, task: nat, sig: Signature, now: Time, why: Origin, stored: Option<Copy>) {
    stored.Some?
    && var c, ttl := stored.value, GetTaskTTL(sig, now);
    && IsNew(c) && c.task == task && c.origin == why && Received(c.msg) == Ok(Normal(sig))
    && Some(c.phase.queue) == QueueFor(cfg, if sig.routingKey == "" then cfg.bindingKey else sig.routingKey)
    && c.expiresAt == (if ttl > 0 then Some(now + ttl * MILLISECOND) else None)
    && c.msg.expiration == (if ttl > 0 then Some(ttl) else None)
  }

  lemma PublishStores(w: World, task: nat, sig: Signature, now: Time, why: Origin, runs: nat, lost: nat, stalls: nat)
    requires NamedQueues(w.cfg) && Keyed(w.cfg, sig) && (sig.routingKey == "" ==> GetTaskTTL(sig, now) == 0)
    requires Marshals(sig)
    ensures Publish(w.cfg, sig, now).Ok?
    ensures IsStored(w.cfg, task, sig, now, why,
                     Stored(w, task, Publish(w.cfg, sig, now).value.sent, now, why, runs, lost, stalls))
  {
    PublishedIsReceived(w.cfg, sig, now);
    hide Prepare, GetTaskTTL, Normal, Marshals, Decode;
  }

  lemma SuccessorIsStored(w: World, submitted: Signature, c: Copy, uuid: string, now: Time)
    requires NamedQueues(w.cfg) && LineageInv(w.cfg, submitted, c) && c.phase.Sending?
    requires Keyed(w.cfg, c.phase.out) && (c.phase.out.routingKey == "" ==> GetTaskTTL(c.phase.out, now) == 0)
    ensures IsStored(w.cfg, c.task, c.phase.out, now, c.phase.why, SuccessorOf(w, c, uuid, now))
  {
    RepublishedForm(w, submitted, c, uuid, now);
    hide Prepare, GetTaskTTL, Normal, Publish, LineageInv, IsStored, NamedQueues, Keyed, Stored;
    PublishStores(w, c.task, c.phase.out, now, c.phase.why, c.runs, c.lost,
                  c.stalls + if c.phase.why.Stalled? then 1 else 0);
  }

  lemma SuccessorIsSafe(w: World, sub: Submission, c: Copy, uuid: string, now: Time)
    requires NamedQueues(w.cfg)
    requires LineageInv(w.cfg, sub.sig, c) && SafeCopy(w, sub, c, now) && c.phase.Sending?
    ensures var successor := SuccessorOf(w, c, uuid, now);
      successor.Some? && Received(successor.value.msg).Ok? && SafeCopy(w, sub, successor.value, now)
  {
    var first, sig, out, why := Normal(sub.sig), Received(c.msg).value, c.phase.out, c.phase.why;
    OutgoingDescends(w.cfg, first, sig, out, why);
    OutgoingIsKeyed(w.cfg, sig, out, why);
    OutgoingTTL(w.cfg, sig, out, why, now);
    SuccessorIsStored(w, sub.sig, c, uuid, now);
    NormalStays(sig);
    hide LineageInv, RetryInterval, Normal, Doomed, Sinks, GetTaskTTL, Received, SuccessorOf, Descends, NamedQueues;
    var successor := SuccessorOf(w, c, uuid, now).value;
    SuccessorIsHopeful(w, sig, out, why, now, Normal(out), successor);
    if why.Retried? || Due(sub.sig, Back(sub)) {
      SuccessorIsTimely(w.cfg, sig, out, why, now, successor);
    }
    hide Hopeful, Sound, Outgoing;
  }

  lemma NormalStays(sig: Signature)
    requires Settled(sig)
    ensures Normal(sig) == sig
  {
  }

  lemma SuccessorIsTimely(cfg: Config, sig: Signature, out: Signature, why: Origin, now: Time, c: Copy)
    requires NamedQueues(cfg) && Outgoing(cfg, sig, out, why) && Sound(cfg, sig, out, why, now)
    requires why.Retried? || Due(sig, now)
    requires var ttl := GetTaskTTL(out, now);
      && c.phase.Queued? && c.expiresAt == (if ttl > 0 then Some(now + ttl * MILLISECOND) else None)
      && (out.routingKey != "" ==> Some(c.phase.queue) == QueueFor(cfg, out.routingKey))
    ensures Timely(cfg, Normal(out), c, now)
  {
    OutgoingTTL(cfg, sig, out, why, now);
    if why.Retried? {
      if c.expiresAt.Some? {
        NormalIsEarlier(out, c.expiresAt.value);
      }
    } else {
      NormalIsEarlier(out, now);
    }
    hide Normal, GetTaskTTL, RetryInterval;
  }

  lemma FirstIsSafe(w: World, sub: Submission, c: Copy)
    requires NamedQueues(w.cfg) && WellFormed(w, sub) && IsStored(w.cfg, c.task, sub.sig, sub.at, Submitted, Some(c))
    ensures SafeCopy(w, sub, c, sub.at)
  {
    hide Received, GetTaskTTL, Doomed, Normal, Hopeful, Timely;
    TTLIs(sub.sig, sub.at);
    NormalIsKeyed(w.cfg, sub.sig);
    FirstIsHopeful(w, sub, c);
    if Due(sub.sig, Back(sub)) {
      FirstIsTimely(w.cfg, sub, c);
    }
  }

  lemma FirstIsHopeful(w: World, sub: Submission, c: Copy)
    requires NamedQueues(w.cfg) && WellFormed(w, sub) && IsStored(w.cfg, c.task, sub.sig, sub.at, Submitted, Some(c))
    ensures Hopeful(w, Normal(sub.sig), c, sub.at)
  {
    TTLIs(sub.sig, sub.at);
    hide Received, GetTaskTTL, Doomed, Normal;
  }

  lemma FirstIsTimely(cfg: Config, sub: Submission, c: Copy)
    requires NamedQueues(cfg) && Due(sub.sig, Back(sub)) && Scheduled(cfg, sub)
    requires IsStored(cfg, c.task, sub.sig, sub.at, Submitted, Some(c))
    ensures Timely(cfg, Normal(sub.sig), c, sub.at)
  {
    TTLIs(sub.sig, sub.at);
    NormalIsEarlier(sub.sig, Back(sub));
    hide Received, GetTaskTTL, Normal;
  }

  lemma SubmittedIsSafe(w: World, sig: Signature, uuid: string, now: Time, task: nat)
    requires NamedQueues(w.cfg) && uuid != ""
    requires var sub := Submission(Stamp(sig, uuid, now), now);
      WellFormed(w, sub) && Publish(w.cfg, sub.sig, now).Ok?
    ensures var sub := Submission(Stamp(sig, uuid, now), now);
      var stored := Stored(w, task, Publish(w.cfg, sub.sig, now).value.sent, now, Submitted, 0, 0, 0);
      stored.Some? && Received(stored.value.msg).Ok? && SafeCopy(w, sub, stored.value, now)
  {
    hide Decode, RetryInterval, Stamp, GetTaskTTL, Doomed, Normal, Stored, SafeCopy, Prepare, Received;
    var sub := Submission(Stamp(sig, uuid, now), now);
    PublishedIsReceived(w.cfg, sub.sig, now);
    TTLIs(sub.sig, now);
    PublishStores(w, task, sub.sig, now, Submitted, 0, 0, 0);
    FirstIsSafe(w, sub, Stored(w, task, Publish(w.cfg, sub.sig, now).value.sent, now, Submitted, 0, 0, 0).value);
  }

  lemma NormalIsKeyed(cfg: Config, sig: Signature)
    requires Keyed(cfg, sig)
    ensures Keyed(cfg, Normal(sig))
  {
  }

  lemma SubmittedWaits(w: World, sig: Signature, uuid: string, now: Time, task: nat)
    requires NamedQueues(w.cfg)
    requires var sub := Submission(Stamp(sig, uuid, now), now); Publish(w.cfg, sub.sig, now).Ok?
    ensures var sub := Submission(Stamp(sig, uuid, now), now);
      var stored := Stored(w, task, Publish(w.cfg, sub.sig, now).value.sent, now, Submitted, 0, 0, 0);
      stored.Some? ==> Waited(w.cfg, sub, stored.value, now)
  {
    var sub := Submission(Stamp(sig, uuid, now), now);
    TTLIs(sub.sig, now);
    hide Prepare, GetTaskTTL, Stamp;
  }

  lemma SettleKeepsSafety(w: World, sub: Submission, c: Copy, now: Time)
    requires NamedQueues(w.cfg) && Received(c.msg).Ok? && SafeCopy(w, sub, c, now)
    ensures c.phase.Settling? ==> SafeCopy(w, sub, SettledCopy(w, c), now)
    ensures c.phase.Held() ==> SafeCopy(w, sub, Requeued(w, c), now)
    ensures c.phase.Held() ==> SafeCopy(w, sub, GivenBack(w, c), now)
  {
    hide Received, Doomed, Sinks, Sound, QueueFor, Due;
  }

  lemma ExpireKeepsSafety(w: World, sub: Submission, c: Copy, now: Time)
    requires NamedQueues(w.cfg) && Received(c.msg).Ok? && SafeCopy(w, sub, c, now)
    requires c.phase.Queued? && c.expiresAt.Some? && c.expiresAt.value <= now
    ensures SafeCopy(w, sub, ExpiredCopy(w, c), now)
  {
    var sig := Received(c.msg).value;
    if Doomed(w, sig, now) {
      DoomedEarlier(w, sig, c.expiresAt.value, now);
    }
    hide Decode, Doomed, Sinks, Sound;
  }

  lemma SafeLater(w: World, sub: Submission, c: Copy, now: Time, later: Time)
    requires Received(c.msg).Ok? && SafeCopy(w, sub, c, now) && now <= later
    ensures SafeCopy(w, sub, c, later)
  {
    var sig := Received(c.msg).value;
    if Doomed(w, sig, later) {
      DoomedEarlier(w, sig, now, later);
    }
    if Sinks(w.cfg, sig, later) {
      SinksEarlier(w.cfg, sig, now, later);
    }
    if c.phase.Sending? && Sound(w.cfg, sig, c.phase.out, c.phase.why, now) {
      SoundLater(w.cfg, sig, c.phase.out, c.phase.why, now, later);
    }
    hide Received, Doomed, Sinks, Sound;
  }
  // ---- The invariant over steps

  lemma CopyInvLater(w: World, s: System, later: System, id: nat, c: Copy)
    requires CopyInv(w, s, id, c)
    requires s.clock <= later.clock && s.nextCopy <= later.nextCopy
    requires forall task :: task in s.submitted ==>
      task in later.submitted && later.submitted[task] == s.submitted[task]
    requires forall i :: i in s.copies ==> i in later.copies && later.copies[i].task == s.copies[i].task
    ensures CopyInv(w, later, id, c)
  {
    var sub := s.submitted[c.task];
    ReceivedInLineage(w.cfg, sub.sig, c);
    if c.origin.TimedOut? || (c.phase.Sending? && c.phase.why.TimedOut?) {
      LateStaysLate(Normal(sub.sig), s.clock, later.clock);
    }
    if WellFormed(w, sub) {
      SafeLater(w, sub, c, s.clock, later.clock);
    }
    hide LineageInv, SafeCopy, WellFormed, CheckTaskTimeout, Received, Normal, Scheduled, Back;
  }

  /** Replacing one copy by another of the same task that is in order keeps the invariant. */
  lemma PutKeepsInv(w: World, s: System, id: nat, c: Copy)
    requires Inv(w, s) && id in s.copies && c.task == s.copies[id].task
    requires CopyInv(w, s, id, c)
    ensures Inv(w, Put(s, id, c))
  {
    hide LineageInv, SafeCopy, WellFormed;
    var s' := Put(s, id, c);
    forall i | i in s'.copies ensures CopyInv(w, s', i, s'.copies[i]) {
      CopyInvLater(w, s, s', i, s'.copies[i]);
    }
    forall task | HasCopy(s, task) ensures HasCopy(s', task) {
      var i :| i in s.copies && s.copies[i].task == task;
      assert i in s'.copies && s'.copies[i].task == task;
    }
  }

  /** So does adding a copy that is in order. */
  lemma StoreKeepsInv(w: World, s: System, stored: Option<Copy>, confirm: Confirm)
    requires Inv(w, s)
    requires stored.Some? ==> CopyInv(w, s.(nextCopy := s.nextCopy + 1), s.nextCopy, stored.value)
    ensures Inv(w, Store(s, stored, confirm))
  {
    hide LineageInv, SafeCopy, WellFormed;
    var s' := Store(s, stored, confirm);
    assert s.nextCopy !in s.copies;
    forall i | i in s'.copies ensures CopyInv(w, s', i, s'.copies[i]) {
      if i in s.copies {
        CopyInvLater(w, s, s', i, s'.copies[i]);
      } else {
        CopyInvLater(w, s.(nextCopy := s.nextCopy + 1), s', i, s'.copies[i]);
      }
    }
    forall task | HasCopy(s, task) ensures HasCopy(s', task) {
      var i :| i in s.copies && s.copies[i].task == task;
      assert i in s'.copies && s'.copies[i].task == task;
    }
  }

  /** The steps that change one copy and store none. */
  function Changed(w: World, s: System, step: Step): Option<(nat, Copy)>
    requires Enabled(w, s, step)
  {
    match step
    case Deliver(id) => Some((id, s.copies[id].(phase := Delivered)))
    case Begin(id) => Some((id, BeginCopy(w, s.copies[id], s.clock)))
    case Finish(id, report) => Some((id, FinishCopy(w, s.copies[id], report, s.clock)))
    case Settle(id) => Some((id, SettledCopy(w, s.copies[id])))
    case GiveBack(id) => Some((id, GivenBack(w, s.copies[id])))
    case Expire(id) => Some((id, ExpiredCopy(w, s.copies[id])))
    case _ => None
  }

  lemma DeliverKeeps(w: World, sub: Submission, c: Copy, now: Time)
    requires NamedQueues(w.cfg) && c.phase == Queued(w.cfg.taskQueue) && LineageInv(w.cfg, sub.sig, c)
    ensures LineageInv(w.cfg, sub.sig, c.(phase := Delivered))
    ensures SafeCopy(w, sub, c, now) ==> SafeCopy(w, sub, c.(phase := Delivered), now)
  {
  }

  lemma BeginIsLate(w: World, submitted: Signature, c: Copy, now: Time)
    requires LineageInv(w.cfg, submitted, c) && Late(submitted, c, now) && c.phase.Delivered?
    ensures Late(submitted, BeginCopy(w, c, now), now)
  {
    hide Decode, Normal;
  }

  lemma FinishIsLate(w: World, submitted: Signature, c: Copy, report: Report, now: Time)
    requires Late(submitted, c, now) && c.phase.Running?
    ensures Late(submitted, FinishCopy(w, c, report, now), now)
  {
  }

  lemma ChangeKeepsWaiting(w: World, s: System, step: Step, sub: Submission)
    requires Enabled(w, s, step) && Changed(w, s, step).Some?
    requires var id := Changed(w, s, step).value.0; id in s.copies && Waited(w.cfg, sub, s.copies[id], s.clock)
    ensures Waited(w.cfg, sub, Changed(w, s, step).value.1, s.clock)
  {
    hide Scheduled, Back, Received, CheckTaskTimeout, RetryPlan, TimeoutPlan, RetryOrigin, QueueFor, AtHead;
  }

  lemma ChangeKeepsLineage(w: World, s: System, step: Step)
    requires NamedQueues(w.cfg) && Inv(w, s) && Enabled(w, s, step) && Changed(w, s, step).Some?
    ensures var (id, c) := Changed(w, s, step).value;
      && id in s.copies && c.task == s.copies[id].task
      && InOrder(w, s.submitted[c.task], c, s.clock)
  {
    hide Normal, LineageInv, SafeCopy, WellFormed, Received, CheckTaskTimeout, Scheduled, Back;
    hide RetryPlan, TimeoutPlan, RetryOrigin, QueueFor;
    var id := Changed(w, s, step).value.0;
    var c := s.copies[id];
    assert CopyInv(w, s, id, c);
    var sub := s.submitted[c.task];
    ChangeKeepsWaiting(w, s, step, sub);
    match step
    case Deliver(_) => DeliverKeeps(w, sub, c, s.clock);
    case Begin(_) =>
      BeginKeepsLineage(w, sub.sig, c, s.clock);
      BeginIsLate(w, sub.sig, c, s.clock);
    case Finish(_, report) =>
      FinishKeepsLineage(w, sub.sig, c, report, s.clock);
      FinishIsLate(w, sub.sig, c, report, s.clock);
    case Settle(_) => SettleKeepsLineage(w, sub.sig, c);
    case GiveBack(_) => RequeueKeepsLineage(w, sub.sig, c);
    case Expire(_) => ExpireKeepsLineage(w, sub.sig, c);
  }

  lemma ChangeKeepsSafety(w: World, s: System, step: Step, id: nat, changed: Copy)
    requires NamedQueues(w.cfg) && Inv(w, s) && Enabled(w, s, step) && Changed(w, s, step) == Some((id, changed))
    requires id in s.copies && s.copies[id].task in s.submitted && WellFormed(w, s.submitted[s.copies[id].task])
    ensures Received(changed.msg).Ok? && Linked(s, id, changed)
    ensures SafeCopy(w, s.submitted[s.copies[id].task], changed, s.clock)
  {
    hide LineageInv, SafeCopy, WellFormed, Received, CheckTaskTimeout, RetryPlan, TimeoutPlan, RetryOrigin, QueueFor;
    var c := s.copies[id];
    assert CopyInv(w, s, id, c);
    var sub := s.submitted[c.task];
    ReceivedInLineage(w.cfg, sub.sig, c);
    if c.phase.Running? {
      RunsReceived(w.cfg, sub.sig, c);
    }
    ChangeKeepsLineage(w, s, step);
    ReceivedInLineage(w.cfg, sub.sig, changed);
    match step
    case Deliver(_) => DeliverKeeps(w, sub, c, s.clock);
    case Begin(_) => BeginKeepsSafety(w, sub, c, s.clock);
    case Finish(_, report) => FinishKeepsSafety(w, sub, c, report, s.clock);
    case Settle(_) => SettleKeepsSafety(w, sub, c, s.clock);
    case GiveBack(_) => SettleKeepsSafety(w, sub, c, s.clock);
    case Expire(_) => ExpireKeepsSafety(w, sub, c, s.clock);
  }

  lemma RunsReceived(cfg: Config, submitted: Signature, c: Copy)
    requires LineageInv(cfg, submitted, c) && c.phase.Running?
    ensures Received(c.msg) == Ok(c.phase.sig)
  {
  }

  lemma ReceivedInLineage(cfg: Config, submitted: Signature, c: Copy)
    requires LineageInv(cfg, submitted, c)
    ensures Received(c.msg).Ok?
  {
  }

  lemma ChangeKeepsInv(w: World, s: System, step: Step)
    requires NamedQueues(w.cfg) && Inv(w, s) && Enabled(w, s, step) && Changed(w, s, step).Some?
    ensures Inv(w, Apply(w, s, step))
  {
    var (id, c) := Changed(w, s, step).value;
    ChangeKeepsLineage(w, s, step);
    assert CopyInv(w, s, id, s.copies[id]);
    if WellFormed(w, s.submitted[c.task]) {
      ChangeKeepsSafety(w, s, step, id, c);
    }
    PutKeepsInv(w, s, id, c);
    if step.Begin? && c.phase.Running? {
      BeginKeepsLineage(w, s.submitted[c.task].sig, s.copies[id], s.clock);
      StartKeepsInv(w, Put(s, id, c), Start(c.task, s.clock));
    }
  }

  lemma StartKeepsInv(w: World, s: System, start: Start)
    requires Inv(w, s) && StartedInTime(w, s, start)
    ensures Inv(w, s.(started := s.started + [start]))
  {
    hide LineageInv, SafeCopy, WellFormed, CheckTaskTimeout;
    var s' := s.(started := s.started + [start]);
    forall i | i in s'.copies ensures CopyInv(w, s', i, s'.copies[i]) {
      CopyInvLater(w, s, s', i, s'.copies[i]);
    }
    assert forall task :: HasCopy(s', task) == HasCopy(s, task);
  }

  lemma TickKeepsInv(w: World, s: System, to: Time)
    requires Inv(w, s) && s.clock <= to
    ensures Inv(w, s.(clock := to))
  {
    hide LineageInv, SafeCopy, WellFormed, CheckTaskTimeout;
    var s' := s.(clock := to);
    forall i | i in s'.copies ensures CopyInv(w, s', i, s'.copies[i]) {
      CopyInvLater(w, s, s', i, s'.copies[i]);
    }
    assert forall task :: HasCopy(s', task) == HasCopy(s, task);
  }

  lemma SentKeepsInv(w: World, s: System, id: nat, uuid: string, confirm: Confirm)
    requires NamedQueues(w.cfg) && Inv(w, s) && uuid != ""
    requires id in s.copies && s.copies[id].phase.Sending?
    ensures Inv(w, Apply(w, s, Republish(id, uuid, confirm)))
  {
    hide Normal, CheckTaskTimeout, SafeCopy, WellFormed, Received, Publish, Stamp, QueueFor;
    hide Descends, PhaseFits, Accounted, StallsExplained, Stamped;
    var c := s.copies[id];
    assert CopyInv(w, s, id, c);
    var sub := s.submitted[c.task];
    var held := SentCopy(w, c, uuid, s.clock, confirm, s.nextCopy);
    var successor := SuccessorOf(w, c, uuid, s.clock);
    SentKeepsLineage(w, sub.sig, c, uuid, s.clock, confirm, s.nextCopy);
    if successor.Some? {
      SuccessorLineage(w, sub.sig, c, uuid, s.clock);
    }
    if WellFormed(w, sub) {
      SuccessorIsSafe(w, sub, c, uuid, s.clock);
      SentIsSafe(w, sub, c, uuid, s.clock, confirm, s.nextCopy);
    }
    RepublishKeepsInv(w, s, id, held, successor, confirm);
  }

  lemma TwinIsInOrder(w: World, s: System, id: nat)
    requires NamedQueues(w.cfg) && Inv(w, s) && id in s.copies && s.copies[id].phase.Held() && s.copies[id].twin.None?
    ensures CopyInv(w, s, id, s.copies[id])
    ensures CopyInv(w, s.(nextCopy := s.nextCopy + 1), s.nextCopy, Requeued(w, s.copies[id]))
  {
    hide LineageInv, SafeCopy, WellFormed, Received, CheckTaskTimeout, NamedQueues;
    var c := s.copies[id];
    assert CopyInv(w, s, id, c);
    var sub := s.submitted[c.task];
    RequeueKeepsLineage(w, sub.sig, c);
    ReceivedInLineage(w.cfg, sub.sig, c);
    if WellFormed(w, sub) {
      SettleKeepsSafety(w, sub, c, s.clock);
    }
  }

  /** The copy delivered again is in order, and so is the handling that goes on. */
  lemma DisconnectKeepsInv(w: World, s: System, id: nat)
    requires NamedQueues(w.cfg) && Inv(w, s) && Enabled(w, s, Disconnect(id))
    ensures Inv(w, Apply(w, s, Disconnect(id)))
  {
    hide Inv, LineageInv, SafeCopy, WellFormed, Received, CheckTaskTimeout, NamedQueues, AtHead;
    var c := s.copies[id];
    TwinIsInOrder(w, s, id);
    var sub := s.submitted[c.task];
    var twin, held := Requeued(w, c), c.(twin := Some(s.nextCopy));
    ReceivedInLineage(w.cfg, sub.sig, c);
    HeldKeeps(w, sub, c, held.twin, s.clock);
    StoreKeepsInv(w, s, Some(twin), Confirmed);
    var stored := Store(s, Some(twin), Confirmed);
    PutKeepsInv(w, stored, id, held);
    assert Put(stored, id, held) == Apply(w, s, Disconnect(id));
  }

  lemma HeldKeeps(w: World, sub: Submission, c: Copy, twin: Option<nat>, now: Time)
    requires LineageInv(w.cfg, sub.sig, c)
    ensures LineageInv(w.cfg, sub.sig, c.(twin := twin))
    ensures SafeCopy(w, sub, c, now) ==> SafeCopy(w, sub, c.(twin := twin), now)
  {
  }

  lemma SentIsSafe(w: World, sub: Submission, c: Copy, uuid: string, now: Time, confirm: Confirm, next: nat)
    requires Received(c.msg).Ok? && SafeCopy(w, sub, c, now) && c.phase.Sending?
    ensures SafeCopy(w, sub, SentCopy(w, c, uuid, now, confirm, next), now)
  {
  }

  /** The successor is stored first, so that the forwarded copy always has one. */
  lemma RepublishKeepsInv(w: World, s: System, id: nat, held: Copy, successor: Option<Copy>, confirm: Confirm)
    requires Inv(w, s) && id in s.copies && held.task == s.copies[id].task && held.phase.Settling?
    requires held.twin == s.copies[id].twin
    requires var sub := s.submitted[held.task];
      && InOrder(w, sub, held, s.clock)
      && (successor.Some? ==> successor.value.task == held.task && IsNew(successor.value)
                              && InOrder(w, sub, successor.value, s.clock))
      && (WellFormed(w, sub) ==>
            && SafeCopy(w, sub, held, s.clock)
            && successor.Some? && SafeCopy(w, sub, successor.value, s.clock)
            && held.phase.verdict in {Requeue, Forwarded(s.nextCopy)}
            && (held.phase.verdict.Forwarded? ==> confirm.Confirmed?))
    ensures Inv(w, Store(Put(s, id, held), successor, confirm))
  {
    hide InOrder, SafeCopy, WellFormed, CheckTaskTimeout;
    assert CopyInv(w, s, id, s.copies[id]);
    StoreKeepsInv(w, s, successor, confirm);
    var stored := Store(s, successor, confirm);
    PutKeepsInv(w, stored, id, held);
    assert Put(stored, id, held) == Store(Put(s, id, held), successor, confirm);
  }

  lemma SubmittedIsInOrder(w: World, sig: Signature, uuid: string, now: Time, task: nat)
    requires NamedQueues(w.cfg) && uuid != ""
    requires var sub := Submission(Stamp(sig, uuid, now), now); Publish(w.cfg, sub.sig, now).Ok?
    ensures var sub := Submission(Stamp(sig, uuid, now), now);
      var stored := Stored(w, task, Publish(w.cfg, sub.sig, now).value.sent, now, Submitted, 0, 0, 0);
      stored.Some? ==> stored.value.task == task && IsNew(stored.value) && InOrder(w, sub, stored.value, now)
  {
    hide LineageInv, Waited, Stamp, Publish, NamedQueues;
    SubmittedCopy(w, sig, uuid, now, task);
    SubmittedWaits(w, sig, uuid, now, task);
  }

  lemma SubmitKeepsInv(w: World, s: System, task: nat, sig: Signature, uuid: string, confirm: Confirm)
    requires NamedQueues(w.cfg) && Inv(w, s) && task !in s.submitted && uuid != ""
    ensures Inv(w, SubmitTask(w, s, task, sig, uuid, confirm))
  {
    hide Inv, SafeCopy, WellFormed, InOrder, Stamp, Publish, Stored, NamedQueues, Received, Waited;
    var stamped := Stamp(sig, uuid, s.clock);
    var published := Publish(w.cfg, stamped, s.clock);
    if published.Ok? {
      var stored := Stored(w, task, published.value.sent, s.clock, Submitted, 0, 0, 0);
      SubmittedIsInOrder(w, sig, uuid, s.clock, task);
      if WellFormed(w, Submission(stamped, s.clock)) {
        SubmittedIsSafe(w, sig, uuid, s.clock, task);
      }
      AdmitKeepsInv(w, s, task, Submission(stamped, s.clock), stored, confirm);
    }
  }

  lemma KnownKeepsInv(w: World, s: System, task: nat, sub: Submission)
    requires Inv(w, s) && task !in s.submitted
    ensures Inv(w, s.(submitted := s.submitted[task := sub]))
  {
    hide InOrder, SafeCopy, WellFormed, CheckTaskTimeout, Scheduled, Back;
    var known := s.(submitted := s.submitted[task := sub]);
    forall i | i in s.copies ensures CopyInv(w, known, i, s.copies[i]) {
      CopyInvLater(w, s, known, i, s.copies[i]);
    }
    assert forall t :: HasCopy(known, t) == HasCopy(s, t);
  }

  lemma AdmitKeepsInv(w: World, s: System, task: nat, sub: Submission, stored: Option<Copy>, confirm: Confirm)
    requires Inv(w, s) && task !in s.submitted && sub.at == s.clock
    requires stored.Some? ==> stored.value.task == task && IsNew(stored.value)
                              && InOrder(w, sub, stored.value, s.clock)
    requires WellFormed(w, sub) ==> stored.Some? && SafeCopy(w, sub, stored.value, s.clock)
    ensures var accepted := if confirm.Confirmed? then s.accepted + {task} else s.accepted;
      Inv(w, Store(s, stored, confirm).(submitted := s.submitted[task := sub], accepted := accepted))
  {
    hide InOrder, SafeCopy, WellFormed, CheckTaskTimeout, Inv;
    var known := s.(submitted := s.submitted[task := sub]);
    KnownKeepsInv(w, s, task, sub);
    StoreKeepsInv(w, known, stored, confirm);
    var s' := Store(known, stored, confirm);
    if stored.Some? && !confirm.NotStored? {
      assert s.nextCopy in s'.copies && s'.copies[s.nextCopy].task == task;
    }
    if confirm.Confirmed? {
      AcceptKeepsInv(w, s', task);
    }
  }

  lemma AcceptKeepsInv(w: World, s: System, task: nat)
    requires Inv(w, s) && task in s.submitted && (WellFormed(w, s.submitted[task]) ==> HasCopy(s, task))
    ensures Inv(w, s.(accepted := s.accepted + {task}))
  {
    hide LineageInv, SafeCopy, WellFormed, CheckTaskTimeout;
    var s' := s.(accepted := s.accepted + {task});
    forall i | i in s'.copies ensures CopyInv(w, s', i, s'.copies[i]) {
      CopyInvLater(w, s, s', i, s'.copies[i]);
    }
    assert forall t :: HasCopy(s', t) == HasCopy(s, t);
  }

  lemma StepKeepsInv(w: World, s: System, step: Step)
    requires NamedQueues(w.cfg) && Inv(w, s) && Enabled(w, s, step)
    ensures Inv(w, Apply(w, s, step))
  {
    match step
    case Tick(to) => TickKeepsInv(w, s, to);
    case Submit(task, sig, uuid, confirm) => SubmitKeepsInv(w, s, task, sig, uuid, confirm);
    case Republish(id, uuid, confirm) => SentKeepsInv(w, s, id, uuid, confirm);
    case Disconnect(id) => DisconnectKeepsInv(w, s, id);
    case _ => ChangeKeepsInv(w, s, step);
  }

  /** The invariant holds in every reachable state. */
  lemma {:induction false} ReachableInv(w: World, clock: Time, steps: seq<Step>, s: System)
    requires NamedQueues(w.cfg) && Reaches(w, clock, steps, s) && clock >= 0
    ensures Inv(w, s)
  {
    if steps != [] {
      var before := After(w, clock, steps[..|steps| - 1]).value;
      ReachableInv(w, clock, steps[..|steps| - 1], before);
      StepKeepsInv(w, before, steps[|steps| - 1]);
    }
  }
}
