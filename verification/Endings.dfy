/** What can still happen to a task: when a queued copy can leave, and how every task comes to an end. */
module Endings {
  import opened GoInt
  import opened Tasks
  import opened Wire
  import opened Broker
  import opened RetryRule
  import opened Protocol
  import opened Lineage
  import opened Safety
  import opened Guarantees
  import opened Losses
  import opened Tallies
  import opened ExactlyOnce

  /** Queued where no worker takes it, so that it leaves only by expiring at the head. */
  predicate Parked(w: World, c: Copy) {
    c.phase.Queued? && c.phase.queue != w.cfg.taskQueue
  }

  /** Holds up a copy: the same one, or one before it in its queue, without an expiration. */
  predicate Blocks(s: System, i: nat, id: nat) {
    && i in s.copies && id in s.copies && i <= id
    && s.copies[i].phase == s.copies[id].phase && s.copies[i].expiresAt.None?
  }

  predicate Blocked(s: System, id: nat) {
    exists i :: i in s.copies && Blocks(s, i, id)
  }

  /** No execution, no publish, no worker and no connection fails, and nothing is submitted. */
  predicate Smooth(step: Step) {
    match step
    case Finish(_, report) => report.Succeeded?
    case Republish(_, _, confirm) => confirm.Confirmed?
    case GiveBack(_) => false
    case Disconnect(_) => false
    case Submit(_, _, _, _) => false
    case _ => true
  }

  /** How many smooth steps a copy is away from its end at most, with all that come after it. An execution
      that fails no more takes no account of the retries left. */
  function Distance(cfg: Config, c: Copy): nat {
    if c.phase.Done? || c.phase.Superseded? || c.phase.Gone? then 0
    else if !Live(c.origin) then 1
    else
      match c.phase
      case Sending(_, why) => if Live(why) then 9 else 3
      case _ => Rank(cfg, c.phase)
  }

  function Far(cfg: Config): (far: Copy -> nat)
    ensures forall c :: far(c) == Distance(cfg, c)
  {
    c => Distance(cfg, c)
  }

  /** The distance of all copies of a task. */
  function AllDistance(cfg: Config, s: System, task: nat): nat {
    TotalOf(Far(cfg), s, task)
  }

  lemma ChangeIsNearer(w: World, submitted: Signature, s: System, step: Step, id: nat, changed: Copy)
    requires NamedQueues(w.cfg) && Enabled(w, s, step) && Smooth(step) && Changed(w, s, step) == Some((id, changed))
    requires id in s.copies && LineageInv(w.cfg, submitted, s.copies[id])
    ensures changed.task == s.copies[id].task
    ensures Distance(w.cfg, changed) < Distance(w.cfg, s.copies[id])
  {
    hide Received, CheckTaskTimeout, Normal, RetryPlan, AtHead;
  }

  /** What is sent on takes the held copy to its acknowledgement, and its successor into some queue. */
  lemma RepublishIsNearer(w: World, submitted: Signature, c: Copy, uuid: string, now: Time, next: nat)
    requires NamedQueues(w.cfg) && LineageInv(w.cfg, submitted, c) && c.phase.Sending?
    ensures var held, successor := SentCopy(w, c, uuid, now, Confirmed, next), SuccessorOf(w, c, uuid, now);
      held.task == c.task && (successor.Some? ==> successor.value.task == c.task)
      && Distance(w.cfg, held) + (if successor.Some? then Distance(w.cfg, successor.value) else 0) < Distance(w.cfg, c)
  {
    assert Live(c.origin) && Republished(w, c, uuid, now).Ok? by {
      RepublishedForm(w, submitted, c, uuid, now);
    }
    hide LineageInv, Republished, QueueFor, NamedQueues, Received, Normal;
    var successor := SuccessorOf(w, c, uuid, now);
    assert successor.Some? ==> IsNew(successor.value) && successor.value.origin == c.phase.why;
    hide SuccessorOf, Stored;
  }

  /** A smooth step submits nothing and never takes a task further from its end; one of its own copies
      brings it nearer. */
  lemma SmoothAdvances(w: World, s: System, step: Step, task: nat)
    requires NamedQueues(w.cfg) && Inv(w, s) && Enabled(w, s, step) && Smooth(step)
    ensures Apply(w, s, step).submitted == s.submitted && Apply(w, s, step).accepted == s.accepted
    ensures AllDistance(w.cfg, Apply(w, s, step), task) + (if Moves(s, step, task) then 1 else 0)
      <= AllDistance(w.cfg, s, task)
  {
    SmoothSubmitsNothing(w, s, step);
    hide Inv, LineageInv, Distance, Total, NamedQueues, AtHead, SentCopy, SuccessorOf;
    if step.Republish? {
      var id := step.id;
      NumbersAreFresh(w, s, id);
      var c := s.copies[id];
      RepublishIsNearer(w, s.submitted[c.task].sig, c, step.uuid, s.clock, s.nextCopy);
      var held := SentCopy(w, c, step.uuid, s.clock, step.confirm, s.nextCopy);
      TotalOfChange(Far(w.cfg), s.copies, id, held, task, s.nextCopy);
      TotalOfStore(Far(w.cfg), Put(s, id, held), SuccessorOf(w, c, step.uuid, s.clock), step.confirm, task);
    } else if !step.Tick? {
      var (id, changed) := Changed(w, s, step).value;
      NumbersAreFresh(w, s, id);
      ChangeIsNearer(w, s.submitted[s.copies[id].task].sig, s, step, id, changed);
      ChangeApplies(w, s, step, id, changed);
      TotalOfChange(Far(w.cfg), s.copies, id, changed, task, s.nextCopy);
    }
  }

  lemma SmoothSubmitsNothing(w: World, s: System, step: Step)
    requires Enabled(w, s, step) && Smooth(step)
    ensures Apply(w, s, step).submitted == s.submitted && Apply(w, s, step).accepted == s.accepted
  {
    hide BeginCopy, FinishCopy, SettledCopy, GivenBack, ExpiredCopy, SentCopy, SuccessorOf, AtHead;
  }

  /** Smooth steps lead from one state to another and bring a task nearer to its end, or at least no
      further from it. */
  predicate Goes(w: World, clock: Time, steps: seq<Step>, s: System, more: seq<Step>, s': System, task: nat, moves: nat)
  {
    && Reaches(w, clock, steps + more, s') && (forall step :: step in more ==> Smooth(step))
    && s'.submitted == s.submitted && s'.accepted == s.accepted
    && AllDistance(w.cfg, s', task) + moves <= AllDistance(w.cfg, s, task)
  }

  /** A step that can be taken some time later. */
  lemma StepLater(w: World, clock: Time, steps: seq<Step>, s: System, to: Time, step: Step, task: nat)
    returns (more: seq<Step>, s': System)
    requires NamedQueues(w.cfg) && Reaches(w, clock, steps, s) && clock >= 0 && s.clock <= to
    requires Enabled(w, s.(clock := to), step) && Smooth(step)
    ensures s' == Apply(w, s.(clock := to), step)
    ensures Goes(w, clock, steps, s, more, s', task, if Moves(s, step, task) then 1 else 0)
  {
    hide Inv, NamedQueues, AllDistance, Reaches, Enabled, Apply;
    var later := s.(clock := to);
    TickIs(w, s, to);
    Take(w, clock, steps, s, Tick(to));
    ReachableInv(w, clock, steps + [Tick(to)], later);
    SmoothAdvances(w, later, step, task);
    assert AllDistance(w.cfg, later, task) == AllDistance(w.cfg, s, task) by {
      SameDistance(w.cfg, s, to, task);
    }
    Take(w, clock, steps + [Tick(to)], later, step);
    more, s' := [Tick(to), step], Apply(w, later, step);
    assert steps + more == steps + [Tick(to)] + [step];
  }

  lemma SameDistance(cfg: Config, s: System, to: Time, task: nat)
    ensures AllDistance(cfg, s.(clock := to), task) == AllDistance(cfg, s, task)
  {
  }

  lemma TickIs(w: World, s: System, to: Time)
    requires s.clock <= to
    ensures Enabled(w, s, Tick(to)) && Apply(w, s, Tick(to)) == s.(clock := to)
  {
  }

  lemma GoesFurther(w: World, clock: Time, steps: seq<Step>, s: System, more: seq<Step>, s': System, task: nat,
                    moves: nat, rest: seq<Step>, s'': System, moves': nat)
    requires Goes(w, clock, steps, s, more, s', task, moves)
    requires Goes(w, clock, steps + more, s', rest, s'', task, moves')
    ensures Goes(w, clock, steps, s, more + rest, s'', task, moves + moves')
    ensures forall fewer: nat :: fewer <= moves + moves' ==> Goes(w, clock, steps, s, more + rest, s'', task, fewer)
  {
    hide Reaches, AllDistance;
    assert steps + (more + rest) == steps + more + rest;
  }

  // ---- Who can leave a queue

  lemma {:induction false} Head(s: System, id: nat) returns (head: nat)
    requires id in s.copies
    ensures head in s.copies && head <= id && s.copies[head].phase == s.copies[id].phase && AtHead(s, head)
    decreases id
  {
    if i :| i in s.copies && s.copies[i].phase == s.copies[id].phase && i < id {
      head := Head(s, i);
    } else {
      head := id;
    }
  }

  /** The head of a queue expires; nothing else changes. */
  lemma ExpireLeaves(w: World, s: System, to: Time, head: nat, id: nat)
    requires NamedQueues(w.cfg) && Enabled(w, s.(clock := to), Expire(head)) && Parked(w, s.copies[head])
    requires id in s.copies && s.copies[id].phase == s.copies[head].phase && !Blocked(s, id)
    ensures var s' := Apply(w, s.(clock := to), Expire(head));
      && head in s'.copies && s'.copies[head].phase != s.copies[head].phase
      && (forall i :: i in s.copies && i != head ==> i in s'.copies && s'.copies[i] == s.copies[i])
      && (head != id ==> !Blocked(s', id))
  {
    var s' := Apply(w, s.(clock := to), Expire(head));
    assert head != id ==> forall i :: Blocks(s', i, id) ==> Blocks(s, i, id);
  }

  /** One after the other the copies before it expire, and then it does. */
  lemma {:induction false} LeavesQueue(w: World, clock: Time, steps: seq<Step>, s: System, id: nat, head: nat)
    returns (more: seq<Step>, s': System)
    requires NamedQueues(w.cfg) && Reaches(w, clock, steps, s) && clock >= 0
    requires id in s.copies && Parked(w, s.copies[id]) && !Blocked(s, id)
    requires head in s.copies && head <= id && s.copies[head].phase == s.copies[id].phase && AtHead(s, head)
    ensures Goes(w, clock, steps, s, more, s', s.copies[id].task, 1)
    ensures id in s'.copies && s'.copies[id].phase != s.copies[id].phase
    decreases id - head
  {
    var c, task := s.copies[head], s.copies[id].task;
    assert !Blocks(s, head, id);
    var to := Max(s.clock, c.expiresAt.value);
    assert Enabled(w, s.(clock := to), Expire(head));
    ExpireLeaves(w, s, to, head, id);
    more, s' := StepLater(w, clock, steps, s, to, Expire(head), task);
    hide Reaches, NamedQueues, Goes, Blocked, Apply, Enabled;
    if head < id {
      var next := Head(s', id);
      GoesReaches(w, clock, steps, s, more, s', task, if c.task == task then 1 else 0);
      var rest, s'' := LeavesQueue(w, clock, steps + more, s', id, next);
      GoesFurther(w, clock, steps, s, more, s', task, if c.task == task then 1 else 0, rest, s'', 1);
      more, s' := more + rest, s'';
    }
  }

  lemma GoesReaches(w: World, clock: Time, steps: seq<Step>, s: System, more: seq<Step>, s': System, task: nat,
                    moves: nat)
    requires Goes(w, clock, steps, s, more, s', task, moves)
    ensures Reaches(w, clock, steps + more, s')
  {
  }

  /** A step changes one copy and adds at most one. */
  lemma StepTouchesOne(w: World, s: System, step: Step, id: nat)
    requires Enabled(w, s, step) && s.nextCopy !in s.copies && id in s.copies && Actor(step) != Some(id)
    ensures id in Apply(w, s, step).copies && Apply(w, s, step).copies[id] == s.copies[id]
  {
    hide Publish, Stamp, BeginCopy, FinishCopy, SettledCopy, GivenBack, Requeued, ExpiredCopy, SentCopy, SuccessorOf,
         AtHead;
  }

  lemma BlockedTakesNoStep(w: World, s: System, step: Step, i: nat, id: nat)
    requires Enabled(w, s, step) && Blocks(s, i, id) && Parked(w, s.copies[id])
    ensures Actor(step) != Some(i) && Actor(step) != Some(id)
  {
  }

  /** No step whatever moves a copy without an expiration, or one behind it in the same queue. */
  lemma StepKeepsBlocked(w: World, s: System, step: Step, i: nat, id: nat)
    requires Inv(w, s) && Enabled(w, s, step) && Blocks(s, i, id) && Parked(w, s.copies[id])
    ensures var s' := Apply(w, s, step);
      Blocks(s', i, id) && s'.copies[id] == s.copies[id]
  {
    hide Inv, Enabled, Apply, Actor;
    NumbersAreFresh(w, s, id);
    BlockedTakesNoStep(w, s, step, i, id);
    StepTouchesOne(w, s, step, i);
    StepTouchesOne(w, s, step, id);
  }

  lemma {:induction false} StaysBlocked(w: World, clock: Time, steps: seq<Step>, s: System, more: seq<Step>, s': System,
                                        i: nat, id: nat)
    requires NamedQueues(w.cfg) && Reaches(w, clock, steps, s) && clock >= 0
    requires Blocks(s, i, id) && Parked(w, s.copies[id]) && Reaches(w, clock, steps + more, s')
    ensures Blocks(s', i, id) && s'.copies[id] == s.copies[id]
    decreases |more|
  {
    hide Inv, NamedQueues, Apply, Enabled, Blocks, Parked;
    if more == [] {
      assert steps + more == steps;
    } else {
      var fewer, step := more[..|more| - 1], more[|more| - 1];
      assert (steps + more)[..|steps + more| - 1] == steps + fewer;
      var before := After(w, clock, steps + fewer).value;
      StaysBlocked(w, clock, steps, s, fewer, before, i, id);
      ReachableInv(w, clock, steps + fewer, before);
      StepKeepsBlocked(w, before, step, i, id);
    }
  }

  /** There is a run in which the copy gets out of its queue. */
  ghost predicate CanLeave(w: World, clock: Time, steps: seq<Step>, s: System, id: nat) {
    exists more, s' ::
      Reaches(w, clock, steps + more, s') && id in s.copies && id in s'.copies
      && s'.copies[id].phase != s.copies[id].phase
  }

  /** A copy in the delayed, the failed or the timeout queue can leave it if and only if neither it nor
      any copy before it is without an expiration. No fault helps it, and no time. */
  lemma LeavesIff(w: World, clock: Time, steps: seq<Step>, s: System, id: nat)
    requires NamedQueues(w.cfg) && Reaches(w, clock, steps, s) && clock >= 0
    requires id in s.copies && Parked(w, s.copies[id])
    ensures CanLeave(w, clock, steps, s, id) <==> !Blocked(s, id)
  {
    hide NamedQueues, Reaches, Parked;
    if Blocked(s, id) {
      var i :| i in s.copies && Blocks(s, i, id);
      forall more, s' | Reaches(w, clock, steps + more, s') ensures id in s'.copies && s'.copies[id] == s.copies[id] {
        StaysBlocked(w, clock, steps, s, more, s', i, id);
      }
    } else {
      var head := Head(s, id);
      var more, s' := LeavesQueue(w, clock, steps, s, id, head);
      assert Reaches(w, clock, steps + more, s');
    }
  }

  // ---- Every task comes to an end

  /** Replaced, over, or blocked in a queue that no worker takes it from. */
  predicate AtRest(w: World, s: System, id: nat)
    requires id in s.copies
  {
    var c := s.copies[id];
    c.phase.Done? || c.phase.Superseded? || c.phase.Gone? || (Parked(w, c) && Blocked(s, id))
  }

  predicate AllAtRest(w: World, s: System, task: nat) {
    forall id :: id in s.copies && s.copies[id].task == task ==> AtRest(w, s, id)
  }

  /** What comes next for a copy that is with a worker or in the task queue. */
  function NextStep(s: System, id: nat): Step
    requires id in s.copies
  {
    var c := s.copies[id];
    match c.phase
    case Queued(_) => if Expired(c, s.clock) then Expire(id) else Deliver(id)
    case Delivered => Begin(id)
    case Running(_) => Finish(id, Succeeded)
    case Sending(_, _) => Republish(id, "task", Confirmed)
    case _ => Settle(id)
  }

  /** A copy that is not at rest has a smooth step to take, or else the head of its queue has, at the
      latest when its expiration is over. */
  lemma NeverStuck(w: World, s: System, id: nat) returns (to: Time, step: Step, mover: nat)
    requires id in s.copies && !AtRest(w, s, id)
    ensures s.clock <= to && Enabled(w, s.(clock := to), step) && Smooth(step) && Actor(step) == Some(mover)
    ensures mover != id ==>
      Parked(w, s.copies[id]) && mover in s.copies && mover < id && s.copies[mover].phase == s.copies[id].phase
  {
    if Parked(w, s.copies[id]) {
      mover := Head(s, id);
      assert !Blocks(s, mover, id);
      to, step := Max(s.clock, s.copies[mover].expiresAt.value), Expire(mover);
    } else {
      mover, to, step := id, s.clock, NextStep(s, id);
      assert s.(clock := to) == s;
    }
  }

  /** Smooth steps bring a copy that is not at rest to a step of its own. */
  lemma Advance(w: World, clock: Time, steps: seq<Step>, s: System, id: nat) returns (more: seq<Step>, s': System)
    requires NamedQueues(w.cfg) && Reaches(w, clock, steps, s) && clock >= 0
    requires id in s.copies && !AtRest(w, s, id)
    ensures Goes(w, clock, steps, s, more, s', s.copies[id].task, 1)
  {
    hide Reaches, NamedQueues, Goes, Blocked, Apply;
    if Parked(w, s.copies[id]) {
      var head := Head(s, id);
      more, s' := LeavesQueue(w, clock, steps, s, id, head);
    } else {
      var to, step, mover := NeverStuck(w, s, id);
      more, s' := StepLater(w, clock, steps, s, to, step, s.copies[id].task);
    }
  }

  /** From every reachable state, smooth steps alone bring every copy of a task to rest. */
  lemma {:induction false} ComesToRest(w: World, clock: Time, steps: seq<Step>, s: System, task: nat)
    returns (more: seq<Step>, s': System)
    requires NamedQueues(w.cfg) && Reaches(w, clock, steps, s) && clock >= 0
    ensures Goes(w, clock, steps, s, more, s', task, 0) && AllAtRest(w, s', task)
    decreases AllDistance(w.cfg, s, task)
  {
    hide NamedQueues, AtRest, AllDistance, Reaches;
    if AllAtRest(w, s, task) {
      more, s' := [], s;
      assert steps + more == steps;
    } else {
      var id :| id in s.copies && s.copies[id].task == task && !AtRest(w, s, id);
      var first, rest, s'';
      first, s'' := Advance(w, clock, steps, s, id);
      rest, s' := ComesToRest(w, clock, steps + first, s'', task);
      GoesFurther(w, clock, steps, s, first, s'', task, 1, rest, s', 0);
      more := first + rest;
    }
  }

  /** An accepted well-formed task can be brought to a success, to the failed or the timeout queue, or to
      wait in the delayed queue at or behind a message without an expiration, whatever has happened to it
      so far. */
  lemma EveryTaskCanEnd(w: World, clock: Time, steps: seq<Step>, s: System, task: nat)
    returns (more: seq<Step>, s': System, id: nat)
    requires NamedQueues(w.cfg) && Reaches(w, clock, steps, s) && clock >= 0
    requires task in s.accepted && task in s.submitted && WellFormed(w, s.submitted[task])
    ensures Reaches(w, clock, steps + more, s') && (forall step :: step in more ==> Smooth(step))
    ensures AllAtRest(w, s', task) && StandsFor(s', id, task)
    ensures var phase := s'.copies[id].phase;
      || phase.Done?
      || (phase.Queued? && phase.queue in {w.cfg.failedQueue, w.cfg.timeoutQueue})
      || (phase == Queued(w.cfg.delayedQueue) && Blocked(s', id))
  {
    more, s' := ComesToRest(w, clock, steps, s, task);
    hide WellFormed, Reaches, Blocked;
    id := NoTaskIsLost(w, clock, steps + more, s', task);
    assert AtRest(w, s', id);
  }
}
