/** The life of tasks in the broker and the workers as a step system. A copy is one message the
    broker stores; a publish makes a new copy, a settlement ends one. Any copies may step in any
    order, a confirm may be lost, and a held delivery may come back at any time: because its worker
    is gone, or while its worker goes on. */
module Protocol {
  import opened Tasks
  import opened Backoff
  import opened Broker
  import opened RetryRule

  datatype World = World(cfg: Config, registered: set<string>)

  /** Why a copy was published. */
  datatype Origin = Submitted | Retried | Stalled | OutOfRetries | TimedOut

  /** How a delivery is about to be settled; `Forwarded` names the copy its republish was stored as. */
  datatype Verdict = Complete | Forwarded(next: nat) | Skipped | Requeue | Discard

  datatype Phase =
    | Queued(queue: string)
    | Delivered
    | Running(sig: Signature)
    | Sending(out: Signature, why: Origin)
    | Settling(verdict: Verdict, ran: bool)
    | Done
    | Superseded(next: nat)
    | Gone
  {
    /** Delivered and not settled: the broker gives such a copy back when the connection is lost
        (AMQP 0-9-1, section 3.1.8). */
    predicate Held() {
      Delivered? || Running? || Sending? || Settling?
    }

    /** The delivery has started an execution. */
    predicate Ran() {
      Running? || (Sending? && !why.TimedOut?) || (Settling? && ran)
    }
  }

  /** A stored message, which a requeue restores unchanged. `twin` is the copy as which the broker has
      taken the message back while its handling still goes on; that handling then settles nothing. `runs`
      counts the executions started on the way to this copy and for it, `lost` those that were put back,
      and `stalls` the retries that advanced nothing. */
  datatype Copy = Copy(
    task: nat,
    msg: Publishing,
    expiresAt: Option<Time>,
    origin: Origin,
    phase: Phase,
    twin: Option<nat>,
    runs: nat,
    lost: nat,
    stalls: nat
  )

  datatype Start = Start(task: nat, at: Time)

  /** A signature as it was first published, and when. */
  datatype Submission = Submission(sig: Signature, at: Time)

  datatype System = System(
    clock: Time,
    submitted: map<nat, Submission>,
    accepted: set<nat>,
    copies: map<nat, Copy>,
    nextCopy: nat,
    started: seq<Start>
  )

  datatype Step =
    | Tick(to: Time)
    | Submit(task: nat, sig: Signature, uuid: string, confirm: Confirm)
    | Deliver(id: nat)
    | Begin(id: nat)
    | Finish(id: nat, report: Report)
    | Republish(id: nat, uuid: string, confirm: Confirm)
    | Settle(id: nat)
    | GiveBack(id: nat)
    | Disconnect(id: nat)
    | Expire(id: nat)

  function Initial(clock: Time): System {
    System(clock, map[], {}, map[], 0, [])
  }

  // ---- Steps of one copy

  function FollowPlan(c: Copy, plan: Plan, why: Origin): Copy {
    match plan
    case Skip => c.(phase := Settling(Skipped, !why.TimedOut?))
    case Send(out) => c.(phase := Sending(out, why))
  }

  /** Decoding, the start deadline and the lookup of the task. */
  function BeginCopy(w: World, c: Copy, now: Time): Copy {
    match Received(c.msg)
    case Err(_) => c.(phase := Settling(Discard, false))
    case Ok(sig) =>
      if CheckTaskTimeout(sig, now) then FollowPlan(c, TimeoutPlan(w.cfg, sig), TimedOut)
      else if sig.name !in w.registered then c.(phase := Settling(Discard, false))
      else c.(phase := Running(sig), runs := c.runs + 1)
  }

  function RetryOrigin(sig: Signature): Origin {
    if Exhausted(sig) then OutOfRetries
    else if RetryInterval(sig.retriesDone + 1) > 0 then Retried
    else Stalled
  }

  function FinishCopy(w: World, c: Copy, report: Report, now: Time): Copy
    requires c.phase.Running?
  {
    var sig := c.phase.sig;
    if report.Succeeded? then c.(phase := Settling(Complete, true))
    else FollowPlan(c, RetryPlan(w.cfg, sig, now), RetryOrigin(sig))
  }

  /** The copy a publish stores, if any queue is bound to its key. */
  function Stored(w: World, task: nat, sent: Sent, now: Time, why: Origin, runs: nat, lost: nat, stalls: nat):
    Option<Copy>
  {
    var queue := QueueFor(w.cfg, sent.key);
    if queue.None? then None else
    var expiresAt := if sent.msg.expiration.Some? then Some(now + sent.msg.expiration.value * MILLISECOND) else None;
    Some(Copy(task, sent.msg, expiresAt, why, Queued(queue.value), None, runs, lost, stalls))
  }

  /** What was published for a held copy, unless it could not be marshalled. */
  function Republished(w: World, c: Copy, uuid: string, now: Time): Result<Published>
    requires c.phase.Sending?
  {
    Publish(w.cfg, Stamp(c.phase.out, uuid, now), now)
  }

  function SuccessorOf(w: World, c: Copy, uuid: string, now: Time): Option<Copy>
    requires c.phase.Sending?
  {
    var published := Republished(w, c, uuid, now);
    if published.Err? then None else
    Stored(w, c.task, published.value.sent, now, c.phase.why, c.runs, c.lost,
           c.stalls + if c.phase.why.Stalled? then 1 else 0)
  }

  function SentCopy(w: World, c: Copy, uuid: string, now: Time, confirm: Confirm, next: nat): Copy
    requires c.phase.Sending?
  {
    var ok := Republished(w, c, uuid, now).Ok? && confirm.Confirmed?;
    c.(phase := Settling(if ok then Forwarded(next) else Requeue, c.phase.Ran()))
  }

  /** Back in the task queue as it was stored. */
  function Requeued(w: World, c: Copy): Copy {
    c.(phase := Queued(w.cfg.taskQueue), lost := c.lost + if c.phase.Ran() then 1 else 0)
  }

  /** A handling ends with its worker. Its delivery comes back, unless it already has. */
  function GivenBack(w: World, c: Copy): Copy {
    if c.twin.Some? then c.(phase := Superseded(c.twin.value)) else Requeued(w, c)
  }

  /** A settlement has no effect on a delivery that has come back meanwhile. */
  function SettledCopy(w: World, c: Copy): Copy
    requires c.phase.Settling?
  {
    if c.twin.Some? then c.(phase := Superseded(c.twin.value)) else
    match c.phase.verdict
    case Complete => c.(phase := Done)
    case Forwarded(next) => c.(phase := Superseded(next))
    case Requeue => Requeued(w, c)
    case _ => c.(phase := Gone)
  }

  /** An expired message of the delayed queue is dead-lettered to the exchange without its
      expiration; one of any other queue is dropped. */
  function ExpiredCopy(w: World, c: Copy): Copy
    requires c.phase.Queued?
  {
    var target := QueueFor(w.cfg, GetRoutingKey(w.cfg));
    if c.phase.queue == w.cfg.delayedQueue && target.Some? then
      c.(msg := c.msg.(expiration := None), expiresAt := None, phase := Queued(target.value))
    else
      c.(phase := Gone)
  }

  // ---- Steps of the system

  /** The first of its queue. Outside the task queue copies are queued by publishing alone, so their
      numbers are in the order of the queue. */
  predicate AtHead(s: System, id: nat)
    requires id in s.copies
  {
    forall i :: i in s.copies && s.copies[i].phase == s.copies[id].phase ==> id <= i
  }

  predicate Expired(c: Copy, now: Time) {
    c.expiresAt.Some? && c.expiresAt.value < now
  }

  predicate Enabled(w: World, s: System, step: Step) {
    match step
    case Tick(to) => s.clock <= to
    case Submit(task, sig, uuid, _) => task !in s.submitted && uuid != ""
    case Deliver(id) =>
      id in s.copies && s.copies[id].phase == Queued(w.cfg.taskQueue) && !Expired(s.copies[id], s.clock)
    case Begin(id) => id in s.copies && s.copies[id].phase.Delivered?
    case Finish(id, _) => id in s.copies && s.copies[id].phase.Running?
    case Republish(id, uuid, _) => id in s.copies && s.copies[id].phase.Sending? && uuid != ""
    case Settle(id) => id in s.copies && s.copies[id].phase.Settling?
    case GiveBack(id) => id in s.copies && s.copies[id].phase.Held()
    case Disconnect(id) => id in s.copies && s.copies[id].phase.Held() && s.copies[id].twin.None?
    case Expire(id) =>
      && id in s.copies && s.copies[id].phase.Queued?
      && s.copies[id].expiresAt.Some? && s.copies[id].expiresAt.value <= s.clock
      && (s.copies[id].phase.queue == w.cfg.taskQueue || AtHead(s, id))
  }

  function Put(s: System, id: nat, c: Copy): System {
    s.(copies := s.copies[id := c])
  }

  /** The state after a publish that may have stored a copy under the next free number. */
  function Store(s: System, stored: Option<Copy>, confirm: Confirm): System {
    if stored.Some? && !confirm.NotStored? then
      Put(s, s.nextCopy, stored.value).(nextCopy := s.nextCopy + 1)
    else
      s.(nextCopy := s.nextCopy + 1)
  }

  function SubmitTask(w: World, s: System, task: nat, sig: Signature, uuid: string, confirm: Confirm): System {
    var stamped := Stamp(sig, uuid, s.clock);
    var published := Publish(w.cfg, stamped, s.clock);
    if published.Err? then s else
    var s' := Store(s, Stored(w, task, published.value.sent, s.clock, Submitted, 0, 0, 0), confirm);
    s'.(submitted := s.submitted[task := Submission(stamped, s.clock)],
        accepted := if confirm.Confirmed? then s.accepted + {task} else s.accepted)
  }

  function Apply(w: World, s: System, step: Step): System
    requires Enabled(w, s, step)
  {
    match step
    case Tick(to) => s.(clock := to)
    case Submit(task, sig, uuid, confirm) => SubmitTask(w, s, task, sig, uuid, confirm)
    case Deliver(id) => Put(s, id, s.copies[id].(phase := Delivered))
    case Begin(id) =>
      var c := BeginCopy(w, s.copies[id], s.clock);
      var s' := Put(s, id, c);
      if c.phase.Running? then s'.(started := s.started + [Start(c.task, s.clock)]) else s'
    case Finish(id, report) => Put(s, id, FinishCopy(w, s.copies[id], report, s.clock))
    case Republish(id, uuid, confirm) =>
      var c := s.copies[id];
      Store(Put(s, id, SentCopy(w, c, uuid, s.clock, confirm, s.nextCopy)), SuccessorOf(w, c, uuid, s.clock), confirm)
    case Settle(id) => Put(s, id, SettledCopy(w, s.copies[id]))
    case GiveBack(id) => Put(s, id, GivenBack(w, s.copies[id]))
    case Disconnect(id) =>
      var c := s.copies[id];
      Store(Put(s, id, c.(twin := Some(s.nextCopy))), Some(Requeued(w, c)), Confirmed)
    case Expire(id) => Put(s, id, ExpiredCopy(w, s.copies[id]))
  }

  /** The state a sequence of steps leads to, if every step is possible where it is taken. */
  function After(w: World, clock: Time, steps: seq<Step>): Option<System> {
    if steps == [] then Some(Initial(clock)) else
    var before := After(w, clock, steps[..|steps| - 1]);
    var step := steps[|steps| - 1];
    if before.Some? && Enabled(w, before.value, step) then Some(Apply(w, before.value, step)) else None
  }

  predicate Reaches(w: World, clock: Time, steps: seq<Step>, s: System) {
    After(w, clock, steps) == Some(s)
  }
}
