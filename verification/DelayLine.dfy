/** The delayed queue: first in, first out, and a message expires only at the head. */
module DelayLine {
  import opened GoInt
  import opened Tasks
  import opened Backoff

  /** When a message came in and when it expires, if ever. */
  datatype Entry = Entry(at: Time, expiresAt: Option<Time>)

  /** All messages that ever came in, and the times at which the first of them left, in order. */
  datatype Line = Line(clock: Time, entries: seq<Entry>, leftAt: seq<Time>)

  datatype Step = Tick(to: Time) | Enqueue(ttl: Option<nat>) | Leave

  function HeadDue(s: Line): Option<Time> {
    if |s.leftAt| < |s.entries| then s.entries[|s.leftAt|].expiresAt else None
  }

  /** Time does not pass the expiry of the head before the head has left. */
  predicate Enabled(s: Line, step: Step) {
    match step
    case Tick(to) => s.clock <= to && (HeadDue(s).Some? ==> to <= Max(s.clock, HeadDue(s).value))
    case Enqueue(_) => true
    case Leave => HeadDue(s).Some? && HeadDue(s).value <= s.clock
  }

  function Apply(s: Line, step: Step): Line {
    match step
    case Tick(to) => s.(clock := to)
    case Enqueue(ttl) =>
      s.(entries := s.entries + [Entry(s.clock, if ttl.Some? then Some(s.clock + ttl.value) else None)])
    case Leave => s.(leftAt := s.leftAt + [s.clock])
  }

  /** The first `n` messages all expire. */
  predicate AllExpire(entries: seq<Entry>, n: nat) {
    n <= |entries| && forall i :: 0 <= i < n ==> entries[i].expiresAt.Some?
  }

  /** The latest expiry among the first `n` messages. */
  ghost function LatestExpiry(entries: seq<Entry>, n: nat): Time
    requires 0 < n && AllExpire(entries, n)
  {
    var last := entries[n - 1].expiresAt.value;
    if n == 1 then last else Max(LatestExpiry(entries, n - 1), last)
  }

  predicate InOrder(s: Line) {
    && (forall i, j :: 0 <= i <= j < |s.entries| ==> s.entries[i].at <= s.entries[j].at)
    && (forall i :: 0 <= i < |s.entries| ==> s.entries[i].at <= s.clock)
    && (forall i :: 0 <= i < |s.entries| && s.entries[i].expiresAt.Some? ==>
          s.entries[i].at <= s.entries[i].expiresAt.value)
  }

  /** The messages that have left did so at the latest expiry up to theirs, and time has not passed
      that of the next. */
  ghost predicate OnTime(s: Line) {
    var n := |s.leftAt|;
    && AllExpire(s.entries, n)
    && (forall j :: 0 <= j < n ==> s.leftAt[j] == LatestExpiry(s.entries, j + 1))
    && (n > 0 ==> s.leftAt[n - 1] <= s.clock)
    && (AllExpire(s.entries, n + 1) ==> s.clock <= LatestExpiry(s.entries, n + 1))
  }

  ghost predicate Inv(s: Line) {
    InOrder(s) && OnTime(s)
  }

  lemma {:induction false} LatestExpiryOfMore(entries: seq<Entry>, more: seq<Entry>, n: nat)
    requires 0 < n && AllExpire(entries, n)
    ensures AllExpire(entries + more, n) && LatestExpiry(entries + more, n) == LatestExpiry(entries, n)
  {
    if n > 1 {
      LatestExpiryOfMore(entries, more, n - 1);
    }
  }

  lemma {:induction false} LatestExpiryBounds(entries: seq<Entry>, n: nat, bound: Time)
    requires 0 < n && AllExpire(entries, n)
    ensures entries[n - 1].expiresAt.value <= LatestExpiry(entries, n)
    ensures (forall i :: 0 <= i < n ==> entries[i].expiresAt.value <= bound) <==> LatestExpiry(entries, n) <= bound
  {
    if n > 1 {
      LatestExpiryBounds(entries, n - 1, bound);
    }
  }

  lemma EnqueueKeepsOnTime(s: Line, ttl: Option<nat>)
    requires Inv(s)
    ensures OnTime(Apply(s, Enqueue(ttl)))
  {
    var s', n := Apply(s, Enqueue(ttl)), |s.leftAt|;
    var more := [s'.entries[|s.entries|]];
    forall j | 0 <= j < n ensures s'.leftAt[j] == LatestExpiry(s'.entries, j + 1) {
      LatestExpiryOfMore(s.entries, more, j + 1);
    }
    if AllExpire(s'.entries, n + 1) {
      if n < |s.entries| {
        assert forall i :: 0 <= i <= n ==> s'.entries[i] == s.entries[i];
        LatestExpiryOfMore(s.entries, more, n + 1);
      } else {
        LatestExpiryBounds(s'.entries, n + 1, s.clock);
      }
    }
  }

  lemma LeaveKeepsOnTime(s: Line)
    requires Inv(s) && Enabled(s, Leave)
    ensures OnTime(Apply(s, Leave))
  {
    var n := |s.leftAt|;
    assert s.clock == LatestExpiry(s.entries, n + 1);
  }

  lemma StepKeepsInv(s: Line, step: Step)
    requires Inv(s) && Enabled(s, step)
    ensures Inv(Apply(s, step))
  {
    match step
    case Tick(to) =>
      if AllExpire(s.entries, |s.leftAt| + 1) {
        LatestExpiryBounds(s.entries, |s.leftAt| + 1, to);
      }
    case Enqueue(ttl) => EnqueueKeepsOnTime(s, ttl);
    case Leave => LeaveKeepsOnTime(s);
  }

  ghost function After(clock: Time, steps: seq<Step>): Option<Line> {
    if steps == [] then Some(Line(clock, [], [])) else
    var before := After(clock, steps[..|steps| - 1]);
    var step := steps[|steps| - 1];
    if before.Some? && Enabled(before.value, step) then Some(Apply(before.value, step)) else None
  }

  lemma {:induction false} ReachableInv(clock: Time, steps: seq<Step>)
    requires After(clock, steps).Some?
    ensures Inv(After(clock, steps).value)
  {
    if steps != [] {
      ReachableInv(clock, steps[..|steps| - 1]);
      StepKeepsInv(After(clock, steps[..|steps| - 1]).value, steps[|steps| - 1]);
    }
  }

  /** The j-th message is the one some step put in, at the time of that step, to expire after its
      time-to-live. */
  lemma {:induction false} EntersAs(clock: Time, steps: seq<Step>, j: nat) returns (i: nat)
    requires After(clock, steps).Some? && j < |After(clock, steps).value.entries|
    ensures i < |steps| && steps[i].Enqueue? && After(clock, steps[..i]).Some?
    ensures var entry, at := After(clock, steps).value.entries[j], After(clock, steps[..i]).value.clock;
      && |After(clock, steps[..i]).value.entries| == j
      && entry.at == at
      && (steps[i].ttl.None? <==> entry.expiresAt.None?)
      && (steps[i].ttl.Some? ==> entry.expiresAt == Some(at + steps[i].ttl.value))
  {
    var n := |steps| - 1;
    var before := After(clock, steps[..n]).value;
    if j < |before.entries| {
      i := EntersAs(clock, steps[..n], j);
      assert steps[..n][..i] == steps[..i];
    } else {
      i := n;
    }
  }

  /** A message leaves when the last of it and everything before it has expired: not before its own
      expiry, and, when no time-to-live exceeds the cap, not later than the cap after it came in. */
  lemma LeavesAt(clock: Time, steps: seq<Step>, j: nat)
    requires After(clock, steps).Some? && j < |After(clock, steps).value.leftAt|
    ensures var s := After(clock, steps).value;
      && AllExpire(s.entries, j + 1)
      && s.leftAt[j] == LatestExpiry(s.entries, j + 1)
      && s.entries[j].expiresAt.value <= s.leftAt[j]
      && ((forall i :: 0 <= i <= j ==> s.entries[i].expiresAt.value <= s.entries[i].at + MAX_DELAY) ==>
            s.leftAt[j] <= s.entries[j].at + MAX_DELAY)
  {
    ReachableInv(clock, steps);
    var s := After(clock, steps).value;
    LatestExpiryBounds(s.entries, j + 1, s.entries[j].at + MAX_DELAY);
  }

  /** A capped message does leave: once the cap is over for it, and no message up to it exceeds the cap,
      it is gone. */
  lemma LeavesInTime(clock: Time, steps: seq<Step>, j: nat)
    requires After(clock, steps).Some?
    requires var s := After(clock, steps).value;
      && AllExpire(s.entries, j + 1)
      && (forall i :: 0 <= i <= j ==> s.entries[i].expiresAt.value <= s.entries[i].at + MAX_DELAY)
      && s.clock > s.entries[j].at + MAX_DELAY
    ensures j < |After(clock, steps).value.leftAt|
  {
    ReachableInv(clock, steps);
    var s := After(clock, steps).value;
    var n := |s.leftAt|;
    if n <= j {
      LatestExpiryBounds(s.entries, n + 1, s.entries[j].at + MAX_DELAY);
    }
  }

  /** A message without an expiration holds up itself and everything behind it for good. */
  lemma UnexpiringBlocks(clock: Time, steps: seq<Step>, i: nat)
    requires After(clock, steps).Some?
    requires var s := After(clock, steps).value; i < |s.entries| && s.entries[i].expiresAt.None?
    ensures |After(clock, steps).value.leftAt| <= i
  {
    ReachableInv(clock, steps);
  }
}
