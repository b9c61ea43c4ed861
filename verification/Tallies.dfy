/** How often a task is started and how long it moves, counted over whole runs. */
module Tallies {
  import opened Tasks
  import opened Backoff
  import opened Wire
  import opened Broker
  import opened RetryRule
  import opened Protocol
  import opened Lineage
  import opened Safety

  /** The executions of a task in the log. */
  function CountStarts(started: seq<Start>, task: nat): nat {
    if started == [] then 0 else
    CountStarts(started[..|started| - 1], task) + if started[|started| - 1].task == task then 1 else 0
  }

  /** What the steps of a run did to one task: `moves` counts them all, `faults` those in which the
      broker failed it, `lost` those that put a delivery back which had started an execution, and
      `doubles` those after which two copies go their way. */
  datatype Tally = Tally(moves: nat, faults: nat, lost: nat, doubles: nat)

  const NOTHING := Tally(0, 0, 0, 0)

  function Actor(step: Step): Option<nat> {
    match step
    case Tick(_) => None
    case Submit(_, _, _, _) => None
    case Deliver(id) => Some(id)
    case Begin(id) => Some(id)
    case Finish(id, _) => Some(id)
    case Republish(id, _, _) => Some(id)
    case Settle(id) => Some(id)
    case GiveBack(id) => Some(id)
    case Disconnect(id) => Some(id)
    case Expire(id) => Some(id)
  }

  predicate Moves(s: System, step: Step, task: nat) {
    var id := Actor(step);
    id.Some? && id.value in s.copies && s.copies[id.value].task == task
  }

  /** Its successor is confirmed and only the acknowledgement is left. */
  predicate Forwards(c: Copy) {
    c.phase.Settling? && c.phase.verdict.Forwarded?
  }

  /** A publish is not confirmed, a worker is lost, or a connection. */
  predicate Faults(step: Step) {
    step.GiveBack? || step.Disconnect? || (step.Republish? && !step.confirm.Confirmed?)
  }

  /** A failed republish is settled, or a worker is lost with a delivery that was not forwarded. */
  predicate PutsBack(c: Copy, step: Step) {
    && c.twin.None?
    && ((step.Settle? && c.phase.Settling? && c.phase.verdict.Requeue?) || (step.GiveBack? && !Forwards(c)))
  }

  /** A delivery comes back while its worker goes on, or after its successor was confirmed, or a
      successor is stored and reported as an error. */
  predicate Doubles(c: Copy, step: Step) {
    || step.Disconnect?
    || (step.GiveBack? && Forwards(c) && c.twin.None?)
    || (step.Republish? && step.confirm.StoredUnconfirmed?)
  }

  function Counted(t: Tally, c: Copy, step: Step): Tally {
    Tally(
      t.moves + 1,
      t.faults + if Faults(step) then 1 else 0,
      t.lost + if PutsBack(c, step) && c.phase.Ran() then 1 else 0,
      t.doubles + if Doubles(c, step) then 1 else 0)
  }

  function Tallied(t: Tally, s: System, step: Step, task: nat): Tally {
    if Moves(s, step, task) then Counted(t, s.copies[Actor(step).value], step) else t
  }

  /** The tally of one task over a possible run. */
  function TallyAfter(w: World, clock: Time, steps: seq<Step>, task: nat): Tally {
    if steps == [] then NOTHING else
    var t := TallyAfter(w, clock, steps[..|steps| - 1], task);
    var before := After(w, clock, steps[..|steps| - 1]);
    if before.Some? then Tallied(t, before.value, steps[|steps| - 1], task) else t
  }

  // ---- What a copy can still do

  datatype Measure = Starts | Steps

  function RetriesLeft(sig: Signature): nat {
    if sig.retriesDone < sig.retryCount then sig.retryCount - sig.retriesDone else 0
  }

  function Rank(cfg: Config, phase: Phase): nat {
    match phase
    case Queued(queue) => if queue == cfg.delayedQueue then 7 else if queue == cfg.taskQueue then 6 else 1
    case Delivered => 5
    case Running(_) => 4
    case Sending(_, _) => 3
    case Settling(verdict, _) => if verdict.Requeue? then 7 else 1
    case _ => 0
  }

  /** The executions, or the steps, still ahead of a copy if nothing goes wrong from here. */
  function Ahead(cfg: Config, m: Measure, c: Copy): nat {
    if c.phase.Done? || c.phase.Superseded? || c.phase.Gone? then 0
    else if Forwards(c) || !Live(c.origin) then if m.Starts? then 0 else 1
    else
      var left := if Received(c.msg).Ok? then RetriesLeft(Received(c.msg).value) else 0;
      if m.Starts? then left + if c.phase.Ran() then 0 else 1 else 8 * left + Rank(cfg, c.phase)
  }

  /** Enough for all retries of one copy. */
  function Allowance(m: Measure, first: Signature): nat {
    if m.Starts? then RetriesLeft(first) + 1 else 8 * RetriesLeft(first) + 8
  }

  /** What has been used of the allowance, by the log and by the steps. */
  function Spent(m: Measure, started: seq<Start>, t: Tally, task: nat): nat {
    if m.Starts? then CountStarts(started, task) else t.moves
  }

  /** What the faults have given back. */
  function Regained(m: Measure, t: Tally): nat {
    if m.Starts? then t.lost else 6 * t.faults
  }

  /** In the exact range of the back-off no retry stalls. */
  predicate Exact(first: Signature) {
    0 <= first.retriesDone && first.retryCount <= LAST_EXACT_RETRY
  }

  lemma AheadIsAllowed(cfg: Config, submitted: Signature, m: Measure, c: Copy)
    requires LineageInv(cfg, submitted, c)
    ensures Ahead(cfg, m, c) <= Allowance(m, Normal(submitted))
    ensures m.Steps? ==> Ahead(cfg, m, c) < Allowance(m, Normal(submitted))
  {
    hide Decode, Normal;
  }

  /** What a step gives a task on top of what was ahead of the copy that takes it. */
  function Extra(m: Measure, first: Signature, c: Copy, step: Step): nat {
    var t := Counted(NOTHING, c, step);
    Regained(m, t) + if Doubles(c, step) then Allowance(m, first) else 0
  }

  /** What a step uses up of its task's allowance. */
  function Used(m: Measure, c: Copy, changed: Copy): nat {
    if m.Steps? then 1 else if changed.phase.Running? && !c.phase.Running? then 1 else 0
  }

  /** Every change of a copy pays for itself out of what was ahead of it, except for what is put back
      or doubled. */
  lemma ChangePays(w: World, s: System, step: Step, id: nat, changed: Copy, m: Measure)
    requires NamedQueues(w.cfg) && Inv(w, s) && Enabled(w, s, step) && Changed(w, s, step) == Some((id, changed))
    requires id in s.copies && s.copies[id].task in s.submitted
    ensures var c := s.copies[id];
      Ahead(w.cfg, m, changed) + Used(m, c, changed)
        <= Ahead(w.cfg, m, c) + Extra(m, Normal(s.submitted[c.task].sig), c, step)
  {
    hide Inv, Normal, CheckTaskTimeout, Decode, RetryInterval;
    var c := s.copies[id];
    NumbersAreFresh(w, s, id);
    AheadIsAllowed(w.cfg, s.submitted[c.task].sig, m, c);
  }

  /** A retry that is sent out has one retry less ahead of it; a copy that is moved away has none. */
  lemma OutgoingIsAhead(cfg: Config, sig: Signature, c: Copy, successor: Copy, m: Measure)
    requires c.phase.Sending? && Live(c.origin) && Received(c.msg) == Ok(sig)
    requires Outgoing(cfg, sig, c.phase.out, c.phase.why) && !c.phase.why.Stalled?
    requires successor.phase.Queued? && successor.origin == c.phase.why && Received(successor.msg).Ok?
    requires Received(successor.msg).value.retriesDone == c.phase.out.retriesDone
    requires Received(successor.msg).value.retryCount == sig.retryCount
    ensures Ahead(cfg, m, successor) + (if m.Steps? then 2 else 0) <= Ahead(cfg, m, c)
  {
    hide Received, RetryInterval;
  }

  /** A successor has less ahead of it than the copy it is to replace. */
  lemma SuccessorIsAhead(w: World, submitted: Signature, c: Copy, uuid: string, now: Time, m: Measure)
    requires NamedQueues(w.cfg) && LineageInv(w.cfg, submitted, c) && c.phase.Sending? && Exact(Normal(submitted))
    ensures var successor := SuccessorOf(w, c, uuid, now);
      successor.Some? ==>
        && Ahead(w.cfg, m, successor.value) + (if m.Steps? then 2 else 0) <= Ahead(w.cfg, m, c)
        && Ahead(w.cfg, m, successor.value) <= Allowance(m, Normal(submitted))
  {
    var first, sig, out := Normal(submitted), Received(c.msg).value, c.phase.out;
    OutgoingDescends(w.cfg, first, sig, out, c.phase.why);
    hide Decode, Prepare, RetryInterval, Normal, Received, Publish, Stamp, QueueFor, Ahead, Settled, Accounted,
         Allowance, StallsExplained, SuccessorOf;
    var successor := SuccessorOf(w, c, uuid, now);
    NotStalled(w.cfg, first, sig, c);
    if successor.Some? {
      SuccessorForm(w, submitted, c, uuid, now);
      SuccessorLineage(w, submitted, c, uuid, now);
      AheadIsAllowed(w.cfg, submitted, m, successor.value);
      OutgoingIsAhead(w.cfg, sig, c, successor.value, m);
    }
  }

  lemma NotStalled(cfg: Config, first: Signature, sig: Signature, c: Copy)
    requires Exact(first) && Descends(first, sig, false) && c.phase.Sending?
    requires Outgoing(cfg, sig, c.phase.out, c.phase.why)
    ensures !c.phase.why.Stalled?
  {
    if c.phase.why.Stalled? {
      NoDelayMeansOverflow(sig.retriesDone + 1);
    }
  }

  lemma SuccessorForm(w: World, submitted: Signature, c: Copy, uuid: string, now: Time)
    requires LineageInv(w.cfg, submitted, c) && c.phase.Sending? && SuccessorOf(w, c, uuid, now).Some?
    ensures var successor := SuccessorOf(w, c, uuid, now).value;
      successor.phase.Queued? && successor.origin == c.phase.why && Received(successor.msg) == Ok(Normal(c.phase.out))
  {
    RepublishedForm(w, submitted, c, uuid, now);
    hide LineageInv, Normal, Received, Publish, Stamp;
  }

  /** After a confirm nothing but the acknowledgement is ahead of the held copy; after a failure it is to
      be delivered again. */
  lemma SentIsAhead(w: World, c: Copy, uuid: string, now: Time, confirm: Confirm, next: nat, m: Measure)
    requires c.phase.Sending? && Live(c.origin) && Republished(w, c, uuid, now).Ok?
    ensures var held := SentCopy(w, c, uuid, now, confirm, next);
      if confirm.Confirmed? then Ahead(w.cfg, m, held) == if m.Steps? then 1 else 0
      else Ahead(w.cfg, m, held) == Ahead(w.cfg, m, c) + if m.Steps? then 4 else 0
  {
    hide Received, Republished;
  }

  /** A publish pays for itself, too. */
  lemma RepublishPays(w: World, submitted: Signature, id: nat, c: Copy, uuid: string, now: Time, confirm: Confirm,
                      next: nat, m: Measure)
    requires NamedQueues(w.cfg) && LineageInv(w.cfg, submitted, c) && c.phase.Sending? && Exact(Normal(submitted))
    ensures var held, successor := SentCopy(w, c, uuid, now, confirm, next), SuccessorOf(w, c, uuid, now);
      var stored := if successor.Some? && !confirm.NotStored? then Ahead(w.cfg, m, successor.value) else 0;
      Ahead(w.cfg, m, held) + stored + Used(m, c, held)
        <= Ahead(w.cfg, m, c) + Extra(m, Normal(submitted), c, Republish(id, uuid, confirm))
  {
    assert Live(c.origin) && Republished(w, c, uuid, now).Ok? by {
      RepublishedForm(w, submitted, c, uuid, now);
    }
    hide Ahead, LineageInv, NamedQueues, SuccessorOf, Normal, Received, Republished, Exact;
    SuccessorIsAhead(w, submitted, c, uuid, now, m);
    SentIsAhead(w, c, uuid, now, confirm, next, m);
  }

  // ---- What a task can still do

  /** A weight added up over all copies of a task with a number below `n`. */
  function Total(weight: Copy -> nat, copies: map<nat, Copy>, task: nat, n: nat): nat {
    if n == 0 then 0 else
    Total(weight, copies, task, n - 1)
    + if n - 1 in copies && copies[n - 1].task == task then weight(copies[n - 1]) else 0
  }

  function TotalOf(weight: Copy -> nat, s: System, task: nat): nat {
    Total(weight, s.copies, task, s.nextCopy)
  }

  lemma {:induction false} TotalAgrees(weight: Copy -> nat, copies: map<nat, Copy>, other: map<nat, Copy>, task: nat,
                                       n: nat)
    requires forall i :: 0 <= i < n ==> (i in copies <==> i in other) && (i in copies ==> copies[i] == other[i])
    ensures Total(weight, copies, task, n) == Total(weight, other, task, n)
  {
    if n > 0 {
      TotalAgrees(weight, copies, other, task, n - 1);
    }
  }

  /** Changing a copy changes the total by what it changes for the copy. */
  lemma {:induction false} TotalOfChange(weight: Copy -> nat, copies: map<nat, Copy>, id: nat, changed: Copy, task: nat,
                                         n: nat)
    requires id in copies && changed.task == copies[id].task && id < n
    ensures var before, after := Total(weight, copies, task, n), Total(weight, copies[id := changed], task, n);
      if changed.task == task then after == before - weight(copies[id]) + weight(changed) else after == before
  {
    if id == n - 1 {
      TotalAgrees(weight, copies, copies[id := changed], task, n - 1);
    } else {
      TotalOfChange(weight, copies, id, changed, task, n - 1);
    }
  }

  /** Storing a copy adds its weight. */
  lemma TotalOfStore(weight: Copy -> nat, s: System, stored: Option<Copy>, confirm: Confirm, task: nat)
    requires s.nextCopy !in s.copies
    ensures TotalOf(weight, Store(s, stored, confirm), task) == TotalOf(weight, s, task)
      + if stored.Some? && !confirm.NotStored? && stored.value.task == task then weight(stored.value) else 0
  {
    TotalAgrees(weight, s.copies, Store(s, stored, confirm).copies, task, s.nextCopy);
  }

  lemma {:induction false} TotalOfNone(weight: Copy -> nat, copies: map<nat, Copy>, task: nat, n: nat)
    requires forall i :: i in copies ==> copies[i].task != task
    ensures Total(weight, copies, task, n) == 0
  {
    if n > 0 {
      TotalOfNone(weight, copies, task, n - 1);
    }
  }

  function Weight(cfg: Config, m: Measure): (weight: Copy -> nat)
    ensures forall c :: weight(c) == Ahead(cfg, m, c)
  {
    c => Ahead(cfg, m, c)
  }

  function AllAhead(cfg: Config, m: Measure, s: System, task: nat): nat {
    TotalOf(Weight(cfg, m), s, task)
  }

  // ---- Every step pays for itself

  /** What a task has used and what it can still use, less what it was given back. */
  function Balance(cfg: Config, m: Measure, first: Signature, s: System, t: Tally, task: nat): int {
    Spent(m, s.started, t, task) + AllAhead(cfg, m, s, task) - Regained(m, t) - Allowance(m, first) * t.doubles
  }

  lemma CountOfStart(started: seq<Start>, start: Start, task: nat)
    ensures CountStarts(started + [start], task) == CountStarts(started, task) + if start.task == task then 1 else 0
  {
    assert (started + [start])[..|started|] == started;
  }

  lemma MoveBalances(cfg: Config, m: Measure, first: Signature, s: System, s': System, step: Step, t: Tally, task: nat)
    requires Moves(s, step, task)
    requires AllAhead(cfg, m, s', task) + (if m.Steps? then 1 else CountStarts(s'.started, task))
      <= AllAhead(cfg, m, s, task) + (if m.Steps? then 0 else CountStarts(s.started, task))
         + Extra(m, first, s.copies[Actor(step).value], step)
    ensures Balance(cfg, m, first, s', Tallied(t, s, step, task), task) <= Balance(cfg, m, first, s, t, task)
  {
    hide AllAhead, CountStarts, Allowance, PutsBack, Faults, Doubles;
    var a := Allowance(m, first);
    assert a * (t.doubles + 1) == a * t.doubles + a;
  }

  lemma ChangeBalances(w: World, s: System, step: Step, id: nat, changed: Copy, first: Signature, m: Measure, t: Tally,
                       task: nat)
    requires Enabled(w, s, step) && Changed(w, s, step) == Some((id, changed))
    requires id in s.copies && id < s.nextCopy && changed.task == s.copies[id].task
    requires changed.task == task ==>
      Ahead(w.cfg, m, changed) + Used(m, s.copies[id], changed)
        <= Ahead(w.cfg, m, s.copies[id]) + Extra(m, first, s.copies[id], step)
    ensures Balance(w.cfg, m, first, Apply(w, s, step), Tallied(t, s, step, task), task)
      <= Balance(w.cfg, m, first, s, t, task)
  {
    hide Ahead, Extra, BeginCopy, FinishCopy, SettledCopy, Requeued, ExpiredCopy, Total, CountStarts;
    TotalOfChange(Weight(w.cfg, m), s.copies, id, changed, task, s.nextCopy);
    CountOfStart(s.started, Start(changed.task, s.clock), task);
    if changed.task == task {
      hide Balance;
      MoveBalances(w.cfg, m, first, s, Apply(w, s, step), step, t, task);
    }
  }

  lemma RepublishBalances(w: World, s: System, step: Step, first: Signature, m: Measure, t: Tally, task: nat)
    requires Enabled(w, s, step) && step.Republish? && step.id < s.nextCopy && s.nextCopy !in s.copies
    requires var c := s.copies[step.id];
      var held := SentCopy(w, c, step.uuid, s.clock, step.confirm, s.nextCopy);
      var successor := SuccessorOf(w, c, step.uuid, s.clock);
      c.task == task ==>
        Ahead(w.cfg, m, held) + Used(m, c, held)
          + (if successor.Some? && !step.confirm.NotStored? then Ahead(w.cfg, m, successor.value) else 0)
          <= Ahead(w.cfg, m, c) + Extra(m, first, c, step)
    ensures Balance(w.cfg, m, first, Apply(w, s, step), Tallied(t, s, step, task), task)
      <= Balance(w.cfg, m, first, s, t, task)
  {
    hide Ahead, Extra, Total, CountStarts, Republished, QueueFor;
    var c := s.copies[step.id];
    var held := SentCopy(w, c, step.uuid, s.clock, step.confirm, s.nextCopy);
    TotalOfChange(Weight(w.cfg, m), s.copies, step.id, held, task, s.nextCopy);
    TotalOfStore(Weight(w.cfg, m), Put(s, step.id, held), SuccessorOf(w, c, step.uuid, s.clock), step.confirm, task);
    if c.task == task {
      hide Balance;
      MoveBalances(w.cfg, m, first, s, Apply(w, s, step), step, t, task);
    }
  }

  lemma TwinPays(w: World, s: System, id: nat, m: Measure)
    requires NamedQueues(w.cfg) && Inv(w, s) && Enabled(w, s, Disconnect(id)) && s.copies[id].task in s.submitted
    ensures var c := s.copies[id];
      var held := c.(twin := Some(s.nextCopy));
      Ahead(w.cfg, m, held) + Ahead(w.cfg, m, Requeued(w, c)) + Used(m, c, held)
        <= Ahead(w.cfg, m, c) + Extra(m, Normal(s.submitted[c.task].sig), c, Disconnect(id))
  {
    hide Inv, LineageInv, NamedQueues, AtHead;
    var c := s.copies[id];
    NumbersAreFresh(w, s, id);
    RequeueKeepsLineage(w, s.submitted[c.task].sig, c);
    AheadIsAllowed(w.cfg, s.submitted[c.task].sig, m, Requeued(w, c));
  }

  lemma DisconnectBalances(w: World, s: System, step: Step, first: Signature, m: Measure, t: Tally, task: nat)
    requires Enabled(w, s, step) && step.Disconnect? && step.id < s.nextCopy && s.nextCopy !in s.copies
    requires var c := s.copies[step.id];
      var held := c.(twin := Some(s.nextCopy));
      c.task == task ==>
        Ahead(w.cfg, m, held) + Ahead(w.cfg, m, Requeued(w, c)) + Used(m, c, held)
          <= Ahead(w.cfg, m, c) + Extra(m, first, c, step)
    ensures Balance(w.cfg, m, first, Apply(w, s, step), Tallied(t, s, step, task), task)
      <= Balance(w.cfg, m, first, s, t, task)
  {
    hide Ahead, Extra, Total, CountStarts, AtHead;
    var c := s.copies[step.id];
    var held := c.(twin := Some(s.nextCopy));
    TotalOfChange(Weight(w.cfg, m), s.copies, step.id, held, task, s.nextCopy);
    TotalOfStore(Weight(w.cfg, m), Put(s, step.id, held), Some(Requeued(w, c)), Confirmed, task);
    if c.task == task {
      hide Balance;
      MoveBalances(w.cfg, m, first, s, Apply(w, s, step), step, t, task);
    }
  }

  lemma SubmitBalances(w: World, s: System, step: Step, first: Signature, m: Measure, t: Tally, task: nat)
    requires Enabled(w, s, step) && step.Submit? && step.task != task && s.nextCopy !in s.copies
    ensures Balance(w.cfg, m, first, Apply(w, s, step), Tallied(t, s, step, task), task)
      == Balance(w.cfg, m, first, s, t, task)
  {
    hide Ahead, Total, CountStarts, Publish, Stamp;
    var published := Publish(w.cfg, Stamp(step.sig, step.uuid, s.clock), s.clock);
    if published.Ok? {
      var stored := Stored(w, step.task, published.value.sent, s.clock, Submitted, 0, 0, 0);
      TotalOfStore(Weight(w.cfg, m), s, stored, step.confirm, task);
    }
  }

  lemma NumbersAreFresh(w: World, s: System, id: nat)
    requires Inv(w, s)
    ensures s.nextCopy !in s.copies
    ensures id in s.copies ==>
      id < s.nextCopy && s.copies[id].task in s.submitted
      && LineageInv(w.cfg, s.submitted[s.copies[id].task].sig, s.copies[id])
  {
    hide LineageInv, SafeCopy, WellFormed, CheckTaskTimeout;
    assert s.nextCopy in s.copies ==> CopyInv(w, s, s.nextCopy, s.copies[s.nextCopy]);
    assert id in s.copies ==> CopyInv(w, s, id, s.copies[id]);
  }

  /** No step makes a task use more than it is given. */
  lemma StepBalances(w: World, s: System, step: Step, m: Measure, t: Tally, task: nat)
    requires NamedQueues(w.cfg) && Inv(w, s) && Enabled(w, s, step)
    requires task in s.submitted && Exact(Normal(s.submitted[task].sig))
    ensures var first := Normal(s.submitted[task].sig);
      Balance(w.cfg, m, first, Apply(w, s, step), Tallied(t, s, step, task), task)
        <= Balance(w.cfg, m, first, s, t, task)
  {
    hide Inv, LineageInv, Balance, Ahead, Extra, Used, Tallied, NamedQueues, Exact, Normal, SentCopy, SuccessorOf,
         AtHead;
    var first := Normal(s.submitted[task].sig);
    match step
    case Tick(_) => TickBalances(w, s, step, first, m, t, task);
    case Submit(_, _, _, _) =>
      NumbersAreFresh(w, s, 0);
      SubmitBalances(w, s, step, first, m, t, task);
    case Republish(id, uuid, confirm) =>
      NumbersAreFresh(w, s, id);
      if s.copies[id].task == task {
        RepublishPays(w, s.submitted[task].sig, id, s.copies[id], uuid, s.clock, confirm, s.nextCopy, m);
      }
      RepublishBalances(w, s, step, first, m, t, task);
    case Disconnect(id) =>
      NumbersAreFresh(w, s, id);
      if s.copies[id].task == task {
        TwinPays(w, s, id, m);
      }
      DisconnectBalances(w, s, step, first, m, t, task);
    case _ =>
      var (id, changed) := Changed(w, s, step).value;
      NumbersAreFresh(w, s, id);
      ChangePays(w, s, step, id, changed, m);
      ChangeBalances(w, s, step, id, changed, first, m, t, task);
  }

  lemma TickBalances(w: World, s: System, step: Step, first: Signature, m: Measure, t: Tally, task: nat)
    requires Enabled(w, s, step) && step.Tick?
    ensures Balance(w.cfg, m, first, Apply(w, s, step), Tallied(t, s, step, task), task)
      == Balance(w.cfg, m, first, s, t, task)
  {
    hide Ahead, Total, CountStarts;
  }
}
