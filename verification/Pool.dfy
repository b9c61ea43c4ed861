/** The connection pool as the provider keeps it: a slice that is popped, appended to, overwritten
    and replaced. Each method holds the mutex, so it is one step of the pool's state machine. */
module Pool {
  import opened Tasks
  import opened RetryRule
  import opened PoolModel

  /** The number of dials that succeed before the first of `count` fails, if one does. */
  function FirstFailure(network: nat -> bool, attempt: nat, count: nat): (dials: Option<nat>)
    ensures dials.None? ==> forall i :: attempt <= i < attempt + count ==> network(i)
    ensures dials.Some? ==> dials.value < count && !network(attempt + dials.value)
    ensures dials.Some? ==> forall i :: attempt <= i < attempt + dials.value ==> network(i)
    decreases count
  {
    if count == 0 then None
    else if !network(attempt) then Some(0)
    else
      var rest := FirstFailure(network, attempt + 1, count - 1);
      if rest.Some? then Some(rest.value + 1) else None
  }

  class AmqpProvider {
    const poolSize: int
    var pool: seq<Conn>

    // The network decides each dial, in the order they are attempted. The connections opened so far are
    // 0, 1, ... below `dialled`; those in `closed` have died or been closed.
    const network: nat -> bool
    var attempts: nat
    var dialled: nat
    var closed: set<Conn>

    // What the callers hold.
    var lent: set<Conn>

    ghost var lost: nat
    ghost var refills: nat

    ghost function State(): PoolState
      requires poolSize > 0
      reads this
    {
      PoolState(poolSize, pool, lent, closed, dialled, lost, refills)
    }

    ghost predicate Valid(callers: nat)
      reads this
    {
      poolSize > 0 && PoolInv(State(), callers)
    }

    constructor (poolSize: int, network: nat -> bool)
      ensures this.poolSize == poolSize && this.network == network
      ensures pool == [] && closed == {} && dialled == 0 && attempts == 0
      ensures lent == {} && lost == 0 && refills == 0
    {
      this.poolSize, this.network := poolSize, network;
      pool, closed, dialled, attempts := [], {}, 0, 0;
      lent, lost, refills := {}, 0, 0;
    }

    /** A dial fails or gives a new connection. */
    method CreateConnection() returns (conn: Option<Conn>)
      modifies this`dialled, this`attempts
      ensures attempts == old(attempts) + 1
      ensures conn == if network(old(attempts)) then Some(old(dialled)) else None
      ensures dialled == old(dialled) + if conn.Some? then 1 else 0
    {
      attempts := attempts + 1;
      if !network(attempts - 1) {
        return None;
      }
      conn := Some(dialled);
      dialled := dialled + 1;
    }

    method Close(conn: Conn)
      modifies this`closed
      ensures closed == old(closed) + {conn}
    {
      closed := closed + {conn};
    }

    method CloseOpen(conns: seq<Conn>)
      modifies this`closed
      ensures closed == old(closed) + Elements(conns)
    {
      for i := 0 to |conns|
        invariant closed == old(closed) + Elements(conns[..i])
      {
        assert Elements(conns[..i + 1]) == Elements(conns[..i]) + {conns[i]};
        if conns[i] !in closed {
          Close(conns[i]);
        }
      }
      assert conns[..|conns|] == conns;
    }

    /** Opens a whole pool of connections, or closes again all it has opened. */
    method DialAll() returns (conns: Option<seq<Conn>>)
      requires poolSize > 0
      modifies this`dialled, this`attempts, this`closed
      ensures match FirstFailure(network, old(attempts), poolSize)
        case None =>
          && conns == Some(Fresh(old(dialled), poolSize))
          && dialled == old(dialled) + poolSize && closed == old(closed)
        case Some(dials) =>
          && conns.None?
          && dialled == old(dialled) + dials && closed == old(closed) + Elements(Fresh(old(dialled), dials))
    {
      var newPool: seq<Conn> := [];
      for i := 0 to poolSize
        invariant dialled == old(dialled) + i && attempts == old(attempts) + i && closed == old(closed)
        invariant newPool == Fresh(old(dialled), i)
        invariant forall j :: old(attempts) <= j < old(attempts) + i ==> network(j)
      {
        var conn := CreateConnection();
        if conn.None? {
          CloseOpen(newPool);
          return None;
        }
        newPool := newPool + [conn.value];
      }
      conns := Some(newPool);
    }

    /** All or nothing: a whole new pool, or the old one and every new connection closed. */
    method CreateConnectionPool() returns (ok: bool)
      modifies this`pool, this`dialled, this`attempts, this`closed
      ensures ok == (poolSize > 0 && FirstFailure(network, old(attempts), poolSize).None?)
      ensures ok ==>
        pool == Fresh(old(dialled), poolSize) && dialled == old(dialled) + poolSize && closed == old(closed)
      ensures !ok ==>
        && pool == old(pool) && dialled >= old(dialled)
        && closed == old(closed) + Elements(Fresh(old(dialled), dialled - old(dialled)))
      ensures ok && old(dialled) == 0 && old(closed) == {} && lent == {} && lost == 0 && refills == 0 ==>
        State() == Created(poolSize) && forall callers: nat :: Valid(callers)
    {
      if poolSize < 1 {
        assert Elements(Fresh(dialled, 0)) == {};
        return false;
      }
      var conns := DialAll();
      if conns.None? {
        return false;
      }
      pool := conns.value;
      ok := true;
      forall callers: nat {
        CreatedInv(poolSize, callers);
      }
    }

    method RefillConnectionPool() returns (ok: bool)
      requires poolSize > 0
      modifies this`pool, this`dialled, this`attempts, this`closed, this`refills
      ensures var dials := FirstFailure(network, old(attempts), poolSize);
        && ok == dials.None?
        && State() == if ok then Refilled(old(State())) else RefillFailed(old(State()), dials.value)
    {
      CloseOpen(pool);
      var conns := DialAll();
      if conns.None? {
        return false;
      }
      pool := conns.value;
      refills := refills + 1;
      ok := true;
    }

    /** How the network decides the next get. */
    ghost function NextDials(): Option<nat>
      requires poolSize > 0
      reads this
    {
      if pool == [] then FirstFailure(network, attempts, poolSize) else None
    }

    /** Takes the first connection; a dead one is replaced by a new one for the caller. */
    method PopConnection() returns (conn: Option<Conn>)
      requires poolSize > 0 && pool != []
      modifies this`pool, this`dialled, this`attempts, this`lent, this`lost
      ensures (State(), conn) == Popped(old(State()), network(old(attempts)))
    {
      var head := pool[0];
      pool := pool[1..];
      conn := Some(head);
      if head in closed {
        conn := CreateConnection();
      }
      if conn.Some? {
        lent := lent + {conn.value};
      } else {
        lost := lost + 1;
      }
    }

    /** The head of a refilled pool is new, so it is open and needs no redial. */
    lemma RefilledHeadIsOpen(s: PoolState, redial: bool, other: bool)
      requires s.size > 0 && Owned(s)
      ensures Popped(Refilled(s), redial) == Popped(Refilled(s), other)
    {
    }

    /** What the caller gets is open and lent to nobody else, and every invariant of the pool is kept. */
    method GetConnectionFromPool(ghost callers: nat) returns (conn: Option<Conn>)
      requires Valid(callers) && |lent| < callers
      modifies this
      ensures Valid(callers)
      ensures (State(), conn) == Got(old(State()), old(NextDials()), network(old(attempts)))
      ensures conn.Some? ==> conn.value !in old(lent) && conn.value !in closed && lent == old(lent) + {conn.value}
      ensures conn.None? ==> lent == old(lent)
      ensures old(pool) != [] ==>
        && pool == old(pool)[1..]
        && conn == if old(pool)[0] !in old(closed) then Some(old(pool)[0])
                   else if network(old(attempts)) then Some(old(dialled)) else None
      ensures old(pool) == [] ==>
        var dials := FirstFailure(network, old(attempts), poolSize);
        && conn == (if dials.None? then Some(old(dialled)) else None)
        && pool == (if dials.None? then Fresh(old(dialled), poolSize)[1..] else [])
    {
      GotInv(State(), NextDials(), network(attempts), callers);
      ghost var before, redial := State(), network(attempts);
      if |pool| == 0 {
        var ok := RefillConnectionPool();
        if !ok {
          return None;
        }
        RefilledHeadIsOpen(before, redial, network(attempts));
      }
      hide Owned, Counted, Within, Popped;
      conn := PopConnection();
    }

    /** A caller gives back what it was lent; a connection that has died is replaced or its slot lost. */
    method ReleaseConnectionToPool(conn: Conn, ghost callers: nat) returns (ok: bool)
      requires Valid(callers) && conn in lent
      modifies this
      ensures Valid(callers)
      ensures State() == Released(old(State()), conn, network(old(attempts)))
      ensures ok == (conn !in closed || network(old(attempts)))
      ensures lent == old(lent) - {conn} && closed == old(closed)
      ensures pool == old(pool) + if conn !in closed then [conn] else if ok then [old(dialled)] else []
    {
      ReleasedInv(State(), conn, network(attempts), callers);
      lent := lent - {conn};
      if conn in closed {
        var newConn := CreateConnection();
        if newConn.None? {
          lost := lost + 1;
          return false;
        }
        pool := pool + [newConn.value];
        return true;
      }
      pool := pool + [conn];
      ok := true;
    }

    method DiscardConnection(conn: Conn, ghost callers: nat)
      requires Valid(callers) && conn in lent
      modifies this
      ensures Valid(callers)
      ensures State() == Discarded(old(State()), conn)
      ensures pool == old(pool) && closed == old(closed) + {conn} && lent == old(lent) - {conn}
    {
      ActKeepsInv(State(), Discard(conn), callers);
      Close(conn);
      lent := lent - {conn};
      lost := lost + 1;
    }

    /** Run by the watcher of a connection that has died. */
    method ReplaceDeadConnection(dead: Conn, ghost callers: nat)
      requires Valid(callers) && dead in closed
      modifies this`pool, this`dialled, this`attempts
      ensures Valid(callers)
      ensures State() == Replaced(old(State()), dead, network(old(attempts)))
      ensures dead in old(pool) && network(old(attempts)) ==>
        && dead !in pool && |pool| == |old(pool)| && dialled == old(dialled) + 1
        && exists i :: 0 <= i < |pool| && old(pool)[i] == dead && pool == old(pool)[i := old(dialled)]
      ensures dead in old(pool) && network(old(attempts)) ==> old(dialled) !in closed
      ensures !(dead in old(pool) && network(old(attempts))) ==> pool == old(pool) && dialled == old(dialled)
      ensures attempts == old(attempts) + if dead in old(pool) then 1 else 0
    {
      ReplacedInv(State(), dead, network(attempts), callers);
      for i := 0 to |pool|
        invariant dead !in pool[..i] && pool == old(pool) && dialled == old(dialled) && attempts == old(attempts)
      {
        if pool[i] == dead {
          FirstIndex(pool, dead, i);
          var newConn := CreateConnection();
          if newConn.Some? {
            pool := pool[i := newConn.value];
          }
          return;
        }
      }
    }

    lemma {:induction false} FirstIndex(cs: seq<Conn>, c: Conn, i: nat)
      requires i < |cs| && cs[i] == c && c !in cs[..i]
      ensures IndexOf(cs, c) == i
    {
      if i == 0 {
      } else {
        assert cs[0] == cs[..i][0];
        assert cs[1..][..i - 1] == cs[..i][1..];
        FirstIndex(cs[1..], c, i - 1);
      }
    }

    /** What publishing does with the connection it borrowed, however the other callers have changed the
        pool meanwhile: back to the pool after a confirm, closed after any error. */
    method FinishPublish(conn: Conn, channelOpens: bool, confirm: Confirm, ghost callers: nat) returns (ok: bool)
      requires Valid(callers) && conn in lent
      modifies this
      ensures Valid(callers)
      ensures lent == old(lent) - {conn}
      ensures ok == (channelOpens && confirm.Confirmed?)
      ensures State() == if ok then Released(old(State()), conn, network(old(attempts)))
                         else Discarded(old(State()), conn)
    {
      ok := channelOpens && confirm.Confirmed?;
      if ok {
        var released := ReleaseConnectionToPool(conn, callers);
      } else {
        DiscardConnection(conn, callers);
      }
    }

    /** Whatever other callers, watchers and dying connections do to the pool while a caller holds one
        connection: any of the steps they are allowed, in any order. */
    method Others(rounds: nat, mine: Conn, callers: nat) returns (ghost actions: seq<Action>)
      requires Valid(callers) && mine in lent
      modifies this
      ensures Valid(callers) && mine in lent
      ensures RunFrom(old(State()), actions, callers) == Some(State())
      ensures forall i :: 0 <= i < |actions| ==> !GivesUp(actions[i], mine)
    {
      actions := [];
      for i := 0 to rounds
        invariant Valid(callers) && mine in lent
        invariant RunFrom(old(State()), actions, callers) == Some(State())
        invariant forall j :: 0 <= j < |actions| ==> !GivesUp(actions[j], mine)
      {
        ghost var action := OtherStep(mine, callers);
        if action.Some? {
          RunOn(old(State()), actions, callers, action.value);
          actions := actions + [action.value];
        }
      }
    }

    /** One such step, or none. */
    method OtherStep(mine: Conn, callers: nat) returns (ghost action: Option<Action>)
      requires Valid(callers) && mine in lent
      modifies this
      ensures Valid(callers) && mine in lent
      ensures action.Some? ==>
        && Allowed(old(State()), action.value, callers) && !GivesUp(action.value, mine)
        && State() == Act(old(State()), action.value)
      ensures action.None? ==> State() == old(State())
    {
      var choice: nat, conn: Conn := *, *;
      ghost var redial := network(attempts);
      action := None;
      if choice == 0 && |lent| < callers {
        action := Some(Get(NextDials(), redial));
        var got := GetConnectionFromPool(callers);
      } else if choice == 1 && conn in lent && conn != mine {
        action := Some(Release(conn, redial));
        var released := ReleaseConnectionToPool(conn, callers);
      } else if choice == 2 && conn in lent && conn != mine {
        action := Some(Discard(conn));
        DiscardConnection(conn, callers);
      } else if choice == 3 && conn in closed {
        action := Some(Replace(conn, redial));
        ReplaceDeadConnection(conn, callers);
      } else if choice == 4 && conn < dialled {
        action := Some(Die(conn));
        ActKeepsInv(State(), Die(conn), callers);
        Close(conn);
      }
    }

    /** Publishing borrows one connection and always gives it up again, whatever others do to the pool
        meanwhile. It succeeds exactly when it got a connection and a channel and the broker confirmed. */
    method PublishWithConfirm(channelOpens: bool, confirm: Confirm, others: nat, callers: nat)
      returns (ok: bool, ghost actions: seq<Action>)
      requires Valid(callers) && |lent| < callers
      modifies this
      ensures Valid(callers)
      ensures var (borrowed, conn) := Got(old(State()), old(NextDials()), network(old(attempts)));
        && ok == (conn.Some? && channelOpens && confirm.Confirmed?)
        && (conn.None? ==> State() == borrowed)
        && (conn.Some? ==>
              && conn.value !in lent && (forall i :: 0 <= i < |actions| ==> !GivesUp(actions[i], conn.value))
              && RunFrom(borrowed, actions, callers).Some?
              && conn.value in RunFrom(borrowed, actions, callers).value.lent)
        && (conn.Some? && ok ==>
              exists redial :: State() == Released(RunFrom(borrowed, actions, callers).value, conn.value, redial))
        && (conn.Some? && !ok ==> State() == Discarded(RunFrom(borrowed, actions, callers).value, conn.value))
    {
      actions := [];
      var conn := GetConnectionFromPool(callers);
      if conn.None? {
        return false, [];
      }
      actions := Others(others, conn.value, callers);
      ok := FinishPublish(conn.value, channelOpens, confirm, callers);
    }
  }
}
