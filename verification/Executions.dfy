/** Bounds on how often a task is started and how many steps it takes, in every run with its faults
    counted. */
module Executions {
  import opened Tasks
  import opened Wire
  import opened Broker
  import opened RetryRule
  import opened Protocol
  import opened Lineage
  import opened Safety
  import opened Tallies

  predicate InBudget(w: World, s: System, m: Measure, t: Tally, task: nat) {
    if task !in s.submitted then t == NOTHING && CountStarts(s.started, task) == 0
    else
      var first := Normal(s.submitted[task].sig);
      Exact(first) ==> Balance(w.cfg, m, first, s, t, task) <= Allowance(m, first)
  }

  lemma SubmittedStays(w: World, s: System, step: Step, task: nat)
    requires Inv(w, s) && Enabled(w, s, step) && task in s.submitted
    ensures var s' := Apply(w, s, step); task in s'.submitted && s'.submitted[task] == s.submitted[task]
  {
    hide Inv, Publish, Stamp, BeginCopy, FinishCopy, SettledCopy, Requeued, ExpiredCopy, SentCopy, SuccessorOf;
  }

  /** Before it is submitted nothing happens to a task. */
  lemma NothingBefore(w: World, s: System, step: Step, t: Tally, task: nat)
    requires Inv(w, s) && Enabled(w, s, step) && task !in s.submitted
    ensures Tallied(t, s, step, task) == t
    ensures CountStarts(Apply(w, s, step).started, task) == CountStarts(s.started, task)
  {
    hide LineageInv, SafeCopy, WellFormed, CheckTaskTimeout, Received, Publish, Stamp, CountStarts, QueueFor;
    if Actor(step).Some? {
      var c := s.copies[Actor(step).value];
      assert CopyInv(w, s, Actor(step).value, c);
      CountOfStart(s.started, Start(c.task, s.clock), task);
    }
  }

  lemma NoCopyBefore(w: World, s: System, task: nat)
    requires Inv(w, s) && task !in s.submitted
    ensures forall id :: id in s.copies ==> s.copies[id].task != task
  {
    hide LineageInv, SafeCopy, WellFormed, CheckTaskTimeout;
    forall id | id in s.copies ensures s.copies[id].task != task {
      assert CopyInv(w, s, id, s.copies[id]);
    }
  }

  /** A submission stores at most one copy. */
  lemma SubmitIsInBudget(w: World, s: System, step: Step, m: Measure)
    requires Inv(w, s) && Enabled(w, s, step) && step.Submit? && CountStarts(s.started, step.task) == 0
    ensures InBudget(w, Apply(w, s, step), m, NOTHING, step.task)
  {
    hide Normal, Decode, Prepare, CountStarts, Ahead, Allowance, LineageInv;
    var task := step.task;
    var stamped := Stamp(step.sig, step.uuid, s.clock);
    var published := Publish(w.cfg, stamped, s.clock);
    if published.Ok? {
      var stored := Stored(w, task, published.value.sent, s.clock, Submitted, 0, 0, 0);
      NumbersAreFresh(w, s, 0);
      NoCopyBefore(w, s, task);
      hide Inv, Publish, Stamp, Stored;
      TotalOfNone(Weight(w.cfg, m), s.copies, task, s.nextCopy);
      TotalOfStore(Weight(w.cfg, m), s, stored, step.confirm, task);
      SubmittedCopy(w, step.sig, step.uuid, s.clock, task);
      if stored.Some? {
        AheadIsAllowed(w.cfg, stamped, m, stored.value);
      }
    }
  }

  lemma StepKeepsBudget(w: World, s: System, step: Step, m: Measure, t: Tally, task: nat)
    requires NamedQueues(w.cfg) && Inv(w, s) && Enabled(w, s, step) && InBudget(w, s, m, t, task)
    ensures InBudget(w, Apply(w, s, step), m, Tallied(t, s, step, task), task)
  {
    hide Inv, Balance, Tallied, Exact, Normal, Allowance, CountStarts, NamedQueues;
    if task in s.submitted {
      SubmittedStays(w, s, step, task);
      if Exact(Normal(s.submitted[task].sig)) {
        StepBalances(w, s, step, m, t, task);
      }
    } else {
      NothingBefore(w, s, step, t, task);
      if step.Submit? && step.task == task {
        SubmitIsInBudget(w, s, step, m);
      }
    }
  }

  lemma {:induction false} ReachableInBudget(w: World, clock: Time, steps: seq<Step>, s: System, m: Measure, task: nat)
    requires NamedQueues(w.cfg) && Reaches(w, clock, steps, s) && clock >= 0
    ensures InBudget(w, s, m, TallyAfter(w, clock, steps, task), task)
  {
    hide Inv, InBudget, NamedQueues, Enabled, Apply, Tallied;
    if steps == [] {
      InitialInBudget(w, clock, m, task);
    } else {
      var before := After(w, clock, steps[..|steps| - 1]).value;
      ReachableInBudget(w, clock, steps[..|steps| - 1], before, m, task);
      ReachableInv(w, clock, steps[..|steps| - 1], before);
      StepKeepsBudget(w, before, steps[|steps| - 1], m, TallyAfter(w, clock, steps[..|steps| - 1], task), task);
    }
  }

  lemma InitialInBudget(w: World, clock: Time, m: Measure, task: nat)
    ensures InBudget(w, Initial(clock), m, NOTHING, task)
  {
  }

  /** The executions of a task in the log, counted over any run with any faults: one more than its
      retries, that again for each time it was doubled, and one for each execution put back. */
  lemma StartsAreBounded(w: World, clock: Time, steps: seq<Step>, s: System, task: nat)
    requires NamedQueues(w.cfg) && Reaches(w, clock, steps, s) && clock >= 0 && task in s.submitted
    requires Exact(Normal(s.submitted[task].sig))
    ensures var first, t := Normal(s.submitted[task].sig), TallyAfter(w, clock, steps, task);
      CountStarts(s.started, task) <= (RetriesLeft(first) + 1) * (1 + t.doubles) + t.lost
  {
    ReachableInBudget(w, clock, steps, s, Starts, task);
    hide Normal, Exact;
    var first, t := Normal(s.submitted[task].sig), TallyAfter(w, clock, steps, task);
    var a := RetriesLeft(first) + 1;
    assert a * (1 + t.doubles) == a + a * t.doubles;
  }

  /** Every task comes to an end: with finitely many faults it takes finitely many steps. */
  lemma MovesAreBounded(w: World, clock: Time, steps: seq<Step>, s: System, task: nat)
    requires NamedQueues(w.cfg) && Reaches(w, clock, steps, s) && clock >= 0 && task in s.submitted
    requires Exact(Normal(s.submitted[task].sig))
    ensures var first, t := Normal(s.submitted[task].sig), TallyAfter(w, clock, steps, task);
      t.moves <= (8 * RetriesLeft(first) + 8) * (1 + t.doubles) + 6 * t.faults
  {
    ReachableInBudget(w, clock, steps, s, Steps, task);
    hide Normal, Exact;
    var first, t := Normal(s.submitted[task].sig), TallyAfter(w, clock, steps, task);
    var a := 8 * RetriesLeft(first) + 8;
    assert a * (1 + t.doubles) == a + a * t.doubles;
  }
}
