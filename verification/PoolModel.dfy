/** The connection pool as a state machine. Connections are numbered in the order they are dialled;
    a caller holds a lent connection until it releases or discards it. */
module PoolModel {
  import opened Tasks

  type Conn = nat

  /** `lost` counts the slots given up, by discarding or by a failed redial. */
  datatype PoolState = PoolState(
    size: nat,
    idle: seq<Conn>,
    lent: set<Conn>,
    closed: set<Conn>,
    dialled: nat,
    lost: nat,
    refills: nat
  )

  /** One step, with the outcomes of the dials it makes. A refill that fails has made `dials`
      connections before; a dying connection is an action of the environment. */
  datatype Action =
    | Get(dials: Option<nat>, redial: bool)
    | Release(conn: Conn, redial: bool)
    | Discard(conn: Conn)
    | Replace(dead: Conn, redial: bool)
    | Die(conn: Conn)

  function Fresh(first: nat, count: nat): (cs: seq<Conn>)
    ensures |cs| == count
    ensures forall i :: 0 <= i < count ==> cs[i] == first + i
  {
    seq(count, i => first + i)
  }

  function Elements(cs: seq<Conn>): set<Conn> {
    set c | c in cs
  }

  function IndexOf(cs: seq<Conn>, c: Conn): (i: nat)
    requires c in cs
    ensures i < |cs| && cs[i] == c && c !in cs[..i]
  {
    if cs[0] == c then 0 else 1 + IndexOf(cs[1..], c)
  }

  function Created(size: nat): PoolState {
    PoolState(size, Fresh(0, size), {}, {}, size, 0, 0)
  }

  /** All connections of the old pool are closed, and a new pool takes its place. */
  function Refilled(s: PoolState): PoolState {
    s.(idle := Fresh(s.dialled, s.size), closed := s.closed + Elements(s.idle), dialled := s.dialled + s.size,
       refills := s.refills + 1)
  }

  /** The connections made before a dial failed are closed again; the pool stays as it was. */
  function RefillFailed(s: PoolState, dials: nat): PoolState {
    s.(closed := s.closed + Elements(s.idle) + Elements(Fresh(s.dialled, dials)), dialled := s.dialled + dials)
  }

  /** Pops the first connection, dialling anew if it has died. */
  function Popped(s: PoolState, redial: bool): (PoolState, Option<Conn>)
    requires s.idle != []
  {
    var head, rest := s.idle[0], s.idle[1..];
    if head !in s.closed then (s.(idle := rest, lent := s.lent + {head}), Some(head))
    else if redial then (s.(idle := rest, lent := s.lent + {s.dialled}, dialled := s.dialled + 1), Some(s.dialled))
    else (s.(idle := rest, lost := s.lost + 1), None)
  }

  function Got(s: PoolState, dials: Option<nat>, redial: bool): (PoolState, Option<Conn>)
    requires s.size > 0
  {
    if s.idle != [] then Popped(s, redial)
    else if dials.None? then Popped(Refilled(s), redial)
    else (RefillFailed(s, dials.value), None)
  }

  function Released(s: PoolState, conn: Conn, redial: bool): PoolState {
    var s := s.(lent := s.lent - {conn});
    if conn !in s.closed then s.(idle := s.idle + [conn])
    else if redial then s.(idle := s.idle + [s.dialled], dialled := s.dialled + 1)
    else s.(lost := s.lost + 1)
  }

  function Discarded(s: PoolState, conn: Conn): PoolState {
    s.(lent := s.lent - {conn}, closed := s.closed + {conn}, lost := s.lost + 1)
  }

  /** A watcher replaces its dead connection where it finds it; a lent one is left to its caller. */
  function Replaced(s: PoolState, dead: Conn, redial: bool): PoolState {
    if dead in s.idle && redial then
      s.(idle := s.idle[IndexOf(s.idle, dead) := s.dialled], dialled := s.dialled + 1)
    else s
  }

  function Act(s: PoolState, action: Action): PoolState
    requires s.size > 0
  {
    match action
    case Get(dials, redial) => Got(s, dials, redial).0
    case Release(conn, redial) => Released(s, conn, redial)
    case Discard(conn) => Discarded(s, conn)
    case Replace(dead, redial) => Replaced(s, dead, redial)
    case Die(conn) => s.(closed := s.closed + {conn})
  }

  /** The discipline of the callers, at most `callers` of which hold or are getting a connection: each
      gives back what it was lent. Watchers fire for dead connections only. */
  predicate Allowed(s: PoolState, action: Action, callers: nat) {
    match action
    case Get(dials, _) => |s.lent| < callers && (dials.Some? ==> dials.value < s.size)
    case Release(conn, _) => conn in s.lent
    case Discard(conn) => conn in s.lent
    case Replace(dead, _) => dead in s.closed
    case Die(conn) => conn < s.dialled
  }

  predicate NoDuplicates(cs: seq<Conn>) {
    forall i, j :: 0 <= i < j < |cs| ==> cs[i] != cs[j]
  }

  /** Every connection has one owner at most, and one that nobody owns has been closed. */
  predicate Owned(s: PoolState) {
    && NoDuplicates(s.idle)
    && (forall c :: c in s.idle ==> c !in s.lent && c < s.dialled)
    && (forall c :: c in s.lent ==> c < s.dialled)
    && (forall c :: c in s.closed ==> c < s.dialled)
    && (forall c :: 0 <= c < s.dialled ==> c in s.idle || c in s.lent || c in s.closed)
  }

  /** Slots are idle, lent or lost, and only refills add any. */
  predicate Counted(s: PoolState) {
    |s.idle| + |s.lent| + s.lost == s.size * (1 + s.refills)
  }

  predicate Within(s: PoolState, callers: nat) {
    |s.idle| + |s.lent| <= s.size + callers - 1
  }

  predicate PoolInv(s: PoolState, callers: nat) {
    s.size > 0 && Owned(s) && Counted(s) && (callers > 0 ==> Within(s, callers))
  }

  // ---- Lists without duplicates

  lemma FreshElements(first: nat, count: nat)
    ensures NoDuplicates(Fresh(first, count))
    ensures forall c :: c in Fresh(first, count) <==> first <= c < first + count
  {
    var cs := Fresh(first, count);
    forall c ensures c in cs <==> first <= c < first + count {
      if first <= c < first + count {
        assert cs[c - first] == c;
      }
    }
  }

  lemma PoppedElements(cs: seq<Conn>)
    requires NoDuplicates(cs) && cs != []
    ensures NoDuplicates(cs[1..])
    ensures forall c :: c in cs[1..] <==> c in cs && c != cs[0]
  {
  }

  lemma AppendedElements(cs: seq<Conn>, last: Conn)
    requires NoDuplicates(cs) && last !in cs
    ensures NoDuplicates(cs + [last])
    ensures forall c :: c in cs + [last] <==> c in cs || c == last
  {
  }

  lemma UpdatedElements(cs: seq<Conn>, i: nat, added: Conn)
    requires NoDuplicates(cs) && i < |cs| && added !in cs
    ensures NoDuplicates(cs[i := added])
    ensures forall c :: c in cs[i := added] <==> (c in cs && c != cs[i]) || c == added
  {
    var cs' := cs[i := added];
    forall c ensures c in cs' <==> (c in cs && c != cs[i]) || c == added {
      if c == added {
        assert cs'[i] == c;
      } else if c in cs && c != cs[i] {
        var j :| 0 <= j < |cs| && cs[j] == c;
        assert cs'[j] == c;
      }
    }
  }

  // ---- Steps

  lemma CreatedInv(size: nat, callers: nat)
    requires size > 0
    ensures PoolInv(Created(size), callers)
  {
    FreshElements(0, size);
  }

  lemma RefilledOwned(s: PoolState)
    requires s.size > 0 && Owned(s) && s.idle == []
    ensures Owned(Refilled(s))
  {
    FreshElements(s.dialled, s.size);
  }

  lemma RefilledCounted(s: PoolState)
    requires Counted(s) && s.idle == []
    ensures Counted(Refilled(s))
  {
    assert s.size * (1 + (s.refills + 1)) == s.size * (1 + s.refills) + s.size;
  }

  lemma RefillFailedOwned(s: PoolState, dials: nat)
    requires Owned(s) && s.idle == []
    ensures Owned(RefillFailed(s, dials))
  {
    FreshElements(s.dialled, dials);
  }

  /** A connection is handed out open and to one caller only. */
  lemma PoppedOwned(s: PoolState, redial: bool)
    requires Owned(s) && s.idle != []
    ensures var (s', conn) := Popped(s, redial);
      && Owned(s')
      && |s'.idle| + |s'.lent| + s'.lost == |s.idle| + |s.lent| + s.lost
      && |s'.idle| + |s'.lent| <= |s.idle| + |s.lent|
      && (conn.Some? ==> conn.value !in s.lent && conn.value !in s'.closed && s'.lent == s.lent + {conn.value})
  {
    PoppedElements(s.idle);
  }

  lemma GotInv(s: PoolState, dials: Option<nat>, redial: bool, callers: nat)
    requires PoolInv(s, callers) && Allowed(s, Get(dials, redial), callers)
    ensures PoolInv(Got(s, dials, redial).0, callers)
    ensures var conn := Got(s, dials, redial).1;
      conn.Some? ==> conn.value !in s.lent && conn.value !in Got(s, dials, redial).0.closed
                     && Got(s, dials, redial).0.lent == s.lent + {conn.value}
  {
    if s.idle != [] {
      PoppedOwned(s, redial);
    } else if dials.None? {
      RefilledOwned(s);
      RefilledCounted(s);
      PoppedOwned(Refilled(s), redial);
    } else {
      RefillFailedOwned(s, dials.value);
    }
  }

  lemma ReleasedInv(s: PoolState, conn: Conn, redial: bool, callers: nat)
    requires PoolInv(s, callers) && conn in s.lent
    ensures PoolInv(Released(s, conn, redial), callers)
  {
    AppendedElements(s.idle, conn);
    AppendedElements(s.idle, s.dialled);
    assert |s.lent - {conn}| == |s.lent| - 1;
  }

  lemma ReplacedInv(s: PoolState, dead: Conn, redial: bool, callers: nat)
    requires PoolInv(s, callers) && dead in s.closed
    ensures PoolInv(Replaced(s, dead, redial), callers)
  {
    if dead in s.idle && redial {
      UpdatedElements(s.idle, IndexOf(s.idle, dead), s.dialled);
    }
  }

  /** A watcher whose dial succeeds leaves an open connection nobody has had in the place of its dead one,
      and everything else as it was. */
  lemma ReplaceRestores(s: PoolState, dead: Conn, redial: bool)
    requires s.size > 0 && Owned(s) && dead in s.closed
    ensures var s' := Act(s, Replace(dead, redial));
      if dead in s.idle && redial then
        && dead !in s'.idle && s.dialled !in s'.closed && s.dialled !in s.idle && s.dialled !in s.lent
        && exists i :: 0 <= i < |s.idle| && s.idle[i] == dead
                       && s' == s.(idle := s.idle[i := s.dialled], dialled := s.dialled + 1)
      else s' == s
  {
    if dead in s.idle && redial {
      var i := IndexOf(s.idle, dead);
      UpdatedElements(s.idle, i, s.dialled);
    }
  }

  /** Every step keeps ownership, the slot count and the growth bound. */
  lemma ActKeepsInv(s: PoolState, action: Action, callers: nat)
    requires PoolInv(s, callers) && Allowed(s, action, callers)
    ensures PoolInv(Act(s, action), callers)
  {
    match action
    case Get(dials, redial) => GotInv(s, dials, redial, callers);
    case Release(conn, redial) => ReleasedInv(s, conn, redial, callers);
    case Discard(conn) =>
      assert |s.lent - {conn}| == |s.lent| - 1;
    case Replace(dead, redial) => ReplacedInv(s, dead, redial, callers);
    case Die(conn) =>
  }

  // ---- Runs

  /** The state a sequence of allowed steps leads to. */
  function RunFrom(start: PoolState, actions: seq<Action>, callers: nat): (s: Option<PoolState>)
    requires start.size > 0
    ensures s.Some? ==> s.value.size == start.size
  {
    if actions == [] then Some(start) else
    var before := RunFrom(start, actions[..|actions| - 1], callers);
    var action := actions[|actions| - 1];
    if before.Some? && Allowed(before.value, action, callers) then Some(Act(before.value, action)) else None
  }

  /** The same from a newly created pool. */
  function PoolAfter(size: nat, actions: seq<Action>, callers: nat): Option<PoolState>
    requires size > 0
  {
    RunFrom(Created(size), actions, callers)
  }

  lemma RunOn(start: PoolState, actions: seq<Action>, callers: nat, action: Action)
    requires start.size > 0 && RunFrom(start, actions, callers).Some?
    requires Allowed(RunFrom(start, actions, callers).value, action, callers)
    ensures RunFrom(start, actions + [action], callers)
         == Some(Act(RunFrom(start, actions, callers).value, action))
  {
    assert (actions + [action])[..|actions|] == actions;
  }

  /** Under every interleaving of callers, watchers and dying connections: no connection is idle twice
      or both idle and lent, none that is open is leaked, every slot is accounted for, and with at
      most M callers the pool never holds more than its size plus M - 1 connections. */
  lemma {:induction false} PoolIsSafe(size: nat, actions: seq<Action>, callers: nat)
    requires size > 0 && PoolAfter(size, actions, callers).Some?
    ensures var s := PoolAfter(size, actions, callers).value;
      Owned(s) && Counted(s) && (callers > 0 ==> Within(s, callers))
    ensures PoolInv(PoolAfter(size, actions, callers).value, callers)
  {
    if actions == [] {
      CreatedInv(size, callers);
    } else {
      PoolIsSafe(size, actions[..|actions| - 1], callers);
      var before := PoolAfter(size, actions[..|actions| - 1], callers).value;
      ActKeepsInv(before, actions[|actions| - 1], callers);
    }
  }

  predicate GivesUp(action: Action, conn: Conn) {
    (action.Release? || action.Discard?) && action.conn == conn
  }

  /** A borrowed connection stays the borrower's until it gives it up, whatever others do meanwhile. */
  lemma {:induction false} LentUntilGivenUp(start: PoolState, actions: seq<Action>, callers: nat, conn: Conn)
    requires start.size > 0 && conn in start.lent && RunFrom(start, actions, callers).Some?
    requires forall i :: 0 <= i < |actions| ==> !GivesUp(actions[i], conn)
    ensures conn in RunFrom(start, actions, callers).value.lent
  {
    if actions != [] {
      LentUntilGivenUp(start, actions[..|actions| - 1], callers, conn);
    }
  }

  /** What a caller gets in any reachable state is open and lent to nobody else. */
  lemma LentToOneCaller(size: nat, actions: seq<Action>, callers: nat, dials: Option<nat>, redial: bool)
    requires size > 0 && PoolAfter(size, actions, callers).Some?
    requires Allowed(PoolAfter(size, actions, callers).value, Get(dials, redial), callers)
    ensures var s := PoolAfter(size, actions, callers).value;
      var (s', conn) := Got(s, dials, redial);
      conn.Some? ==> conn.value !in s.lent && conn.value !in s'.closed && s'.lent == s.lent + {conn.value}
  {
    PoolIsSafe(size, actions, callers);
    GotInv(PoolAfter(size, actions, callers).value, dials, redial, callers);
  }
}
