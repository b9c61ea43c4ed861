/** The growth bound of the pool is exact, and undisturbed use rotates it. */
module PoolBounds {
  import opened Tasks
  import opened PoolModel

  predicate IdleOpen(s: PoolState) {
    forall c :: c in s.idle ==> c !in s.closed
  }

  /** `n` callers take a connection each, and no connection dies. */
  lemma {:induction false} LendTo(size: nat, callers: nat, n: nat) returns (actions: seq<Action>, s: PoolState)
    requires size > 0 && n <= callers
    ensures PoolAfter(size, actions, callers) == Some(s)
    ensures |s.lent| == n && s.closed == {}
  {
    if n == 0 {
      actions, s := [], Created(size);
    } else {
      actions, s := LendTo(size, callers, n - 1);
      PoolIsSafe(size, actions, callers);
      LentToOneCaller(size, actions, callers, None, false);
      RunOn(Created(size), actions, callers, Get(None, false));
      actions, s := actions + [Get(None, false)], Got(s, None, false).0;
    }
  }

  /** One more caller discards every idle connection. */
  lemma {:induction false} Drain(size: nat, callers: nat, actions: seq<Action>, s: PoolState)
    returns (actions': seq<Action>, s': PoolState)
    requires size > 0 && PoolAfter(size, actions, callers) == Some(s) && |s.lent| < callers && IdleOpen(s)
    ensures PoolAfter(size, actions', callers) == Some(s')
    ensures s'.idle == [] && s'.lent == s.lent
    decreases |s.idle|
  {
    if s.idle == [] {
      actions', s' := actions, s;
    } else {
      var head := s.idle[0];
      PoolIsSafe(size, actions, callers);
      PoppedElements(s.idle);
      RunOn(Created(size), actions, callers, Get(None, false));
      var lent := Got(s, None, false).0;
      RunOn(Created(size), actions + [Get(None, false)], callers, Discard(head));
      var dropped := Discarded(lent, head);
      assert dropped.lent == s.lent;
      actions', s' := Drain(size, callers, actions + [Get(None, false)] + [Discard(head)], dropped);
    }
  }

  /** Size plus callers minus one is reached, for every pool size and every number of callers, so the
      pool outgrows its configured size as soon as there are two callers. */
  lemma BoundIsReached(size: nat, callers: nat) returns (actions: seq<Action>)
    requires size > 0 && callers > 0
    ensures PoolAfter(size, actions, callers).Some?
    ensures var s := PoolAfter(size, actions, callers).value;
      |s.idle| + |s.lent| == size + callers - 1
  {
    var s: PoolState;
    actions, s := LendTo(size, callers, callers - 1);
    actions, s := Drain(size, callers, actions, s);
    PoolIsSafe(size, actions, callers);
    LentToOneCaller(size, actions, callers, None, false);
    FreshElements(s.dialled, size);
    RunOn(Created(size), actions, callers, Get(None, false));
    actions := actions + [Get(None, false)];
  }

  /** One caller takes a connection and gives it back. */
  function Round(s: PoolState): (s': PoolState)
    requires s.idle != []
    ensures |s'.idle| == |s.idle|
  {
    var (lent, conn) := Popped(s, true);
    Released(lent, conn.value, true)
  }

  function Rounds(s: PoolState, n: nat): (s': PoolState)
    requires s.idle != []
    ensures |s'.idle| == |s.idle|
  {
    if n == 0 then s else Round(Rounds(s, n - 1))
  }

  lemma RoundRotates(s: PoolState)
    requires s.idle != [] && s.idle[0] !in s.closed && s.idle[0] !in s.lent
    ensures Round(s) == s.(idle := s.idle[1..] + [s.idle[0]])
  {
  }

  /** With every connection open, rounds rotate the pool and change nothing else; as many rounds as
      there are connections bring back the original order. */
  lemma {:induction false} RoundsRotate(s: PoolState, n: nat)
    requires s.idle != [] && Owned(s) && IdleOpen(s) && n <= |s.idle|
    ensures Rounds(s, n) == s.(idle := s.idle[n..] + s.idle[..n])
    ensures n == |s.idle| ==> Rounds(s, n) == s
  {
    hide Round;
    if n == 0 {
      assert s.idle[0..] + s.idle[..0] == s.idle;
    } else {
      RoundsRotate(s, n - 1);
      var before := Rounds(s, n - 1);
      assert before.idle[0] == s.idle[n - 1] && s.idle[n - 1] in s.idle;
      RoundRotates(before);
      assert before.idle[1..] + [before.idle[0]] == s.idle[n..] + s.idle[..n];
      assert n == |s.idle| ==> s.idle[n..] + s.idle[..n] == s.idle;
    }
  }
}
