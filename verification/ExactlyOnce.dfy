/** A task that no fault doubles has exactly one standing copy, which counts its executions. */
module ExactlyOnce {
  import opened Tasks
  import opened Wire
  import opened Broker
  import opened RetryRule
  import opened Protocol
  import opened Lineage
  import opened Safety
  import opened Guarantees
  import opened Tallies
  import opened Executions

  predicate StandsFor(s: System, id: nat, task: nat) {
    id in s.copies && s.copies[id].task == task && Stands(s.copies[id])
  }

  /** And no handling goes on whose delivery has come back. */
  ghost predicate AtMostOne(s: System, task: nat) {
    && (forall i, j :: StandsFor(s, i, task) && StandsFor(s, j, task) ==> i == j)
    && (forall id :: id in s.copies && s.copies[id].task == task ==> s.copies[id].twin.None?)
  }

  /** The counters a standing copy carries are those of the log and of the steps. */
  ghost predicate CountsWell(s: System, t: Tally, task: nat) {
    forall id :: StandsFor(s, id, task) ==>
      s.copies[id].runs == CountStarts(s.started, task) && s.copies[id].lost == t.lost
  }

  /** What a change does to the counters of a copy. */
  lemma ChangeCounts(w: World, s: System, step: Step, id: nat, changed: Copy)
    requires Enabled(w, s, step) && Changed(w, s, step) == Some((id, changed)) && id in s.copies
    requires s.copies[id].twin.None?
    ensures var c := s.copies[id];
      && changed.task == c.task && changed.twin.None? && Actor(step) == Some(id)
      && changed.runs == c.runs + (if step.Begin? && changed.phase.Running? then 1 else 0)
      && (!Doubles(c, step) ==>
            && changed.lost == c.lost + (if PutsBack(c, step) && c.phase.Ran() then 1 else 0)
            && (Stands(changed) ==> Stands(c))
            && (!Stands(c) ==> !step.Begin? && !PutsBack(c, step)))
  {
    hide CheckTaskTimeout, Received, QueueFor, RetryPlan, TimeoutPlan, RetryOrigin;
  }

  lemma ChangeApplies(w: World, s: System, step: Step, id: nat, changed: Copy)
    requires Enabled(w, s, step) && Changed(w, s, step) == Some((id, changed))
    ensures Actor(step) == Some(id) && Apply(w, s, step).copies == s.copies[id := changed]
    ensures Apply(w, s, step).started
         == if step.Begin? && changed.phase.Running? then s.started + [Start(changed.task, s.clock)] else s.started
  {
    hide BeginCopy, FinishCopy, SettledCopy, GivenBack, ExpiredCopy, AtHead;
  }

  lemma ChangeKeepsAtMostOne(w: World, s: System, step: Step, id: nat, changed: Copy, t: Tally, task: nat)
    requires AtMostOne(s, task)
    requires Enabled(w, s, step) && Changed(w, s, step) == Some((id, changed)) && id in s.copies
    requires Tallied(t, s, step, task).doubles == t.doubles
    ensures AtMostOne(Apply(w, s, step), task)
  {
    if s.copies[id].task == task {
      ChangeCounts(w, s, step, id, changed);
    }
    ChangeApplies(w, s, step, id, changed);
    hide Enabled, Changed, Apply, Stands, PutsBack, Doubles;
    var s' := Apply(w, s, step);
    forall i, j | StandsFor(s', i, task) && StandsFor(s', j, task) ensures i == j {
      assert StandsFor(s, i, task) && StandsFor(s, j, task);
    }
  }

  /** A confirmed successor stands in place of the copy that was sent. */
  lemma RepublishKeepsAtMostOne(w: World, s: System, step: Step, t: Tally, task: nat)
    requires s.nextCopy !in s.copies && AtMostOne(s, task)
    requires Enabled(w, s, step) && step.Republish? && Tallied(t, s, step, task).doubles == t.doubles
    ensures AtMostOne(Apply(w, s, step), task)
  {
    hide Republished, QueueFor;
    var s' := Apply(w, s, step);
    assert s.copies[step.id].task == task ==> StandsFor(s, step.id, task);
    forall i, j | StandsFor(s', i, task) && StandsFor(s', j, task) ensures i == j {
      assert i in s.copies ==> StandsFor(s, i, task);
      assert j in s.copies ==> StandsFor(s, j, task);
    }
  }

  lemma SubmitKeepsAtMostOne(w: World, s: System, step: Step, task: nat)
    requires AtMostOne(s, task) && Enabled(w, s, step) && step.Submit? && s.nextCopy !in s.copies
    requires step.task == task ==> forall id :: id in s.copies ==> s.copies[id].task != task
    ensures AtMostOne(Apply(w, s, step), task)
  {
    hide Publish, Stamp, QueueFor;
    var s' := Apply(w, s, step);
    forall i, j | StandsFor(s', i, task) && StandsFor(s', j, task) ensures i == j {
      assert i in s.copies ==> StandsFor(s, i, task);
      assert j in s.copies ==> StandsFor(s, j, task);
    }
  }

  lemma OtherKeepsAtMostOne(w: World, s: System, step: Step, t: Tally, task: nat)
    requires AtMostOne(s, task) && Enabled(w, s, step) && s.nextCopy !in s.copies && (step.Tick? || step.Disconnect?)
    requires Tallied(t, s, step, task).doubles == t.doubles
    ensures AtMostOne(Apply(w, s, step), task)
  {
    assert forall id :: StandsFor(Apply(w, s, step), id, task) ==> StandsFor(s, id, task);
  }

  /** A step that does not double the task leaves it at most one standing copy. */
  lemma StepKeepsAtMostOne(w: World, s: System, step: Step, t: Tally, task: nat)
    requires NamedQueues(w.cfg) && Inv(w, s) && AtMostOne(s, task)
    requires Enabled(w, s, step) && Tallied(t, s, step, task).doubles == t.doubles
    ensures AtMostOne(Apply(w, s, step), task)
  {
    hide Inv, AtMostOne, Tallied, Apply, NamedQueues, AtHead;
    NumbersAreFresh(w, s, if Actor(step).Some? then Actor(step).value else 0);
    match step
    case Submit(_, _, _, _) =>
      if task !in s.submitted {
        NoCopyBefore(w, s, task);
      }
      SubmitKeepsAtMostOne(w, s, step, task);
    case Republish(_, _, _) => RepublishKeepsAtMostOne(w, s, step, t, task);
    case Tick(_) => OtherKeepsAtMostOne(w, s, step, t, task);
    case Disconnect(_) => OtherKeepsAtMostOne(w, s, step, t, task);
    case _ =>
      var (id, changed) := Changed(w, s, step).value;
      ChangeKeepsAtMostOne(w, s, step, id, changed, t, task);
  }

  /** The counters of the copy go up as those of its task, and those of other tasks stay. */
  lemma ChangeTallies(w: World, s: System, step: Step, id: nat, changed: Copy, t: Tally, task: nat)
    requires Enabled(w, s, step) && Changed(w, s, step) == Some((id, changed)) && id in s.copies
    requires Tallied(t, s, step, task).doubles == t.doubles && (s.copies[id].task == task ==> s.copies[id].twin.None?)
    ensures var c, t' := s.copies[id], Tallied(t, s, step, task);
      var starts := CountStarts(Apply(w, s, step).started, task) - CountStarts(s.started, task);
      && changed.task == c.task
      && (c.task != task || !Stands(c) ==> starts == 0 && t'.lost == t.lost)
      && (c.task == task ==> changed.runs - c.runs == starts && changed.lost - c.lost == t'.lost - t.lost)
      && (c.task == task && Stands(changed) ==> Stands(c))
  {
    ChangeApplies(w, s, step, id, changed);
    ChangedTask(w, s, step, id, changed);
    CountOfStart(s.started, Start(changed.task, s.clock), task);
    hide CountStarts, Enabled, Changed, Apply, Stands, PutsBack, Doubles;
    if s.copies[id].task == task {
      ChangeCounts(w, s, step, id, changed);
    }
  }

  lemma ChangeCountsWell(w: World, s: System, step: Step, id: nat, changed: Copy, t: Tally, task: nat)
    requires AtMostOne(s, task) && CountsWell(s, t, task)
    requires Enabled(w, s, step) && Changed(w, s, step) == Some((id, changed)) && id in s.copies
    requires Tallied(t, s, step, task).doubles == t.doubles
    ensures CountsWell(Apply(w, s, step), Tallied(t, s, step, task), task)
  {
    hide CountStarts, Enabled, Changed, Apply, Stands, Tallied;
    ChangeApplies(w, s, step, id, changed);
    ChangeTallies(w, s, step, id, changed, t, task);
    var s' := Apply(w, s, step);
    assert s.copies[id].task == task && Stands(s.copies[id]) ==> StandsFor(s, id, task);
    forall i | StandsFor(s', i, task)
      ensures s'.copies[i].runs == CountStarts(s'.started, task)
      ensures s'.copies[i].lost == Tallied(t, s, step, task).lost
    {
      assert StandsFor(s, i, task);
    }
  }

  lemma ChangedTask(w: World, s: System, step: Step, id: nat, changed: Copy)
    requires Enabled(w, s, step) && Changed(w, s, step) == Some((id, changed)) && id in s.copies
    ensures changed.task == s.copies[id].task
  {
    hide AtHead;
  }

  lemma RepublishCountsWell(w: World, s: System, step: Step, t: Tally, task: nat)
    requires s.nextCopy !in s.copies && AtMostOne(s, task) && CountsWell(s, t, task)
    requires Enabled(w, s, step) && step.Republish?
    ensures CountsWell(Apply(w, s, step), Tallied(t, s, step, task), task)
  {
    hide CountStarts, Republished, QueueFor;
    var c := s.copies[step.id];
    assert c.task == task ==> StandsFor(s, step.id, task);
    var s' := Apply(w, s, step);
    forall i | StandsFor(s', i, task)
      ensures s'.copies[i].runs == CountStarts(s'.started, task)
      ensures s'.copies[i].lost == Tallied(t, s, step, task).lost
    {
      assert i in s.copies ==> StandsFor(s, i, task);
    }
  }

  lemma SubmitCountsWell(w: World, s: System, step: Step, t: Tally, task: nat)
    requires s.nextCopy !in s.copies && CountsWell(s, t, task)
    requires task !in s.submitted ==>
      t == NOTHING && CountStarts(s.started, task) == 0 && forall id :: id in s.copies ==> s.copies[id].task != task
    requires Enabled(w, s, step) && step.Submit?
    ensures CountsWell(Apply(w, s, step), Tallied(t, s, step, task), task)
  {
    hide CountStarts, Publish, Stamp, QueueFor;
    var s' := Apply(w, s, step);
    forall i | StandsFor(s', i, task)
      ensures s'.copies[i].runs == CountStarts(s'.started, task) && s'.copies[i].lost == t.lost
    {
      assert i in s.copies ==> StandsFor(s, i, task);
    }
  }

  lemma DisconnectCountsWell(w: World, s: System, step: Step, t: Tally, task: nat)
    requires s.nextCopy !in s.copies && CountsWell(s, t, task) && Enabled(w, s, step) && step.Disconnect?
    requires Tallied(t, s, step, task).doubles == t.doubles
    ensures CountsWell(Apply(w, s, step), Tallied(t, s, step, task), task)
  {
    hide CountStarts;
    assert forall id :: StandsFor(Apply(w, s, step), id, task) ==> StandsFor(s, id, task);
  }

  lemma TickCountsWell(w: World, s: System, step: Step, t: Tally, task: nat)
    requires CountsWell(s, t, task) && Enabled(w, s, step) && step.Tick?
    ensures CountsWell(Apply(w, s, step), Tallied(t, s, step, task), task)
  {
    assert forall id :: StandsFor(Apply(w, s, step), id, task) ==> StandsFor(s, id, task);
  }

  lemma StepCountsWell(w: World, s: System, step: Step, t: Tally, task: nat)
    requires NamedQueues(w.cfg) && Inv(w, s) && AtMostOne(s, task) && CountsWell(s, t, task)
    requires task !in s.submitted ==> t == NOTHING && CountStarts(s.started, task) == 0
    requires Enabled(w, s, step) && Tallied(t, s, step, task).doubles == t.doubles
    ensures CountsWell(Apply(w, s, step), Tallied(t, s, step, task), task)
  {
    hide Inv, AtMostOne, CountsWell, CountStarts, Tallied, Apply, NamedQueues, AtHead;
    NumbersAreFresh(w, s, if Actor(step).Some? then Actor(step).value else 0);
    match step
    case Tick(_) => TickCountsWell(w, s, step, t, task);
    case Submit(_, _, _, _) =>
      if task !in s.submitted {
        NoCopyBefore(w, s, task);
      }
      SubmitCountsWell(w, s, step, t, task);
    case Republish(_, _, _) => RepublishCountsWell(w, s, step, t, task);
    case Disconnect(_) => DisconnectCountsWell(w, s, step, t, task);
    case _ =>
      var (id, changed) := Changed(w, s, step).value;
      ChangeCountsWell(w, s, step, id, changed, t, task);
  }

  lemma {:induction false} ReachableCountsWell(w: World, clock: Time, steps: seq<Step>, s: System, task: nat)
    requires NamedQueues(w.cfg) && Reaches(w, clock, steps, s) && clock >= 0
    requires TallyAfter(w, clock, steps, task).doubles == 0
    ensures AtMostOne(s, task) && CountsWell(s, TallyAfter(w, clock, steps, task), task)
  {
    hide Inv, CountsWell, NamedQueues, Enabled, Apply, Balance;
    if steps == [] {
      InitialCountsWell(clock, task);
    } else {
      var before := After(w, clock, steps[..|steps| - 1]).value;
      ReachableCountsWell(w, clock, steps[..|steps| - 1], before, task);
      ReachableInv(w, clock, steps[..|steps| - 1], before);
      ReachableInBudget(w, clock, steps[..|steps| - 1], before, Steps, task);
      var t, step := TallyAfter(w, clock, steps[..|steps| - 1], task), steps[|steps| - 1];
      StepKeepsAtMostOne(w, before, step, t, task);
      StepCountsWell(w, before, step, t, task);
    }
  }

  lemma InitialCountsWell(clock: Time, task: nat)
    ensures CountsWell(Initial(clock), NOTHING, task)
  {
  }

  // ---- Main results

  /** Exactly once: whatever else a run does, unless it doubles an accepted well-formed task, one and
      only one copy stands for it, and it is kept. */
  lemma ExactlyOneCopyStands(w: World, clock: Time, steps: seq<Step>, s: System, task: nat)
    requires NamedQueues(w.cfg) && Reaches(w, clock, steps, s) && clock >= 0
    requires TallyAfter(w, clock, steps, task).doubles == 0
    requires task in s.accepted && task in s.submitted && WellFormed(w, s.submitted[task])
    ensures exists id :: StandsFor(s, id, task) && Kept(w.cfg, s.copies[id])
                         && forall other :: StandsFor(s, other, task) ==> other == id
  {
    hide WellFormed, CountsWell;
    var id := NoTaskIsLost(w, clock, steps, s, task);
    ReachableCountsWell(w, clock, steps, s, task);
    assert StandsFor(s, id, task);
  }

  /** An error report means "not stored", and no delivery is given back by a lost connection. */
  predicate FaultFree(step: Step) {
    match step
    case Submit(_, _, _, confirm) => !confirm.StoredUnconfirmed?
    case Republish(_, _, confirm) => !confirm.StoredUnconfirmed?
    case GiveBack(_) => false
    case Disconnect(_) => false
    case _ => true
  }

  lemma {:induction false} FaultFreeDoublesNothing(w: World, clock: Time, steps: seq<Step>, task: nat)
    requires forall step :: step in steps ==> FaultFree(step)
    ensures TallyAfter(w, clock, steps, task).doubles == 0
  {
    if steps != [] {
      FaultFreeDoublesNothing(w, clock, steps[..|steps| - 1], task);
      assert FaultFree(steps[|steps| - 1]);
    }
  }

  /** The executions in the log, counted through the standing copy of a task that was not doubled: its
      retries done, the executions that were put back, the retries that advanced nothing, and the one
      it is in or ended with. Only more than 49 retries stall. */
  lemma StartsAddUp(w: World, clock: Time, steps: seq<Step>, s: System, task: nat, id: nat)
    requires NamedQueues(w.cfg) && Reaches(w, clock, steps, s) && clock >= 0
    requires TallyAfter(w, clock, steps, task).doubles == 0
    requires StandsFor(s, id, task) && !s.copies[id].phase.Gone?
    ensures var c, t := s.copies[id], TallyAfter(w, clock, steps, task);
      task in s.submitted && Received(c.msg).Ok?
      && var first, sig := Normal(s.submitted[task].sig), Received(c.msg).value;
      && CountStarts(s.started, task) == sig.retriesDone - first.retriesDone + t.lost + c.stalls + Open(c)
      && (Exact(first) ==> c.stalls == 0)
  {
    ReachableCountsWell(w, clock, steps, s, task);
    hide Normal, Received, Open, CountStarts;
    RunsAddUp(w, clock, steps, s, id);
  }

  /** A task in the failed queue that was not doubled was started once more than its retries, and once
      more for each execution that was put back. */
  lemma FailedAfterAllRetries(w: World, clock: Time, steps: seq<Step>, s: System, task: nat, id: nat)
    requires NamedQueues(w.cfg) && Reaches(w, clock, steps, s) && clock >= 0
    requires TallyAfter(w, clock, steps, task).doubles == 0
    requires StandsFor(s, id, task) && s.copies[id].origin.OutOfRetries? && s.copies[id].phase.Queued?
    requires task in s.submitted && Exact(Normal(s.submitted[task].sig))
    ensures var t := TallyAfter(w, clock, steps, task);
      CountStarts(s.started, task) == RetriesLeft(Normal(s.submitted[task].sig)) + 1 + t.lost
  {
    hide NamedQueues, AtMostOne, CountStarts;
    StartsAddUp(w, clock, steps, s, task, id);
    QueuesFitReasons(w, clock, steps, s, id);
    IdentityIsKept(w, clock, steps, s, id);
  }
}
