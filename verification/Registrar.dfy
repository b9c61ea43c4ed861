/** The registrar's methods, which change the signature they are handed and talk to the broker. */
module Registrar {
  import opened GoInt
  import opened Tasks
  import opened Backoff
  import opened Wire
  import opened Broker
  import opened RetryRule

  /** A signature in memory, shared by pointer and changed in place. */
  class SignatureCell {
    var uuid: string
    var name: string
    var args: seq<Arg>
    var rawArgs: Option<Body>
    var routingKey: string
    var priority: UInt8
    var retryCount: Int64
    var retryTimeout: Int64
    var waitTime: Int64
    var retriesDone: Int64
    var taskTimeOut: Int64
    var ignoreWhenTaskNotRegistered: bool
    var createdAt: Option<Time>
    var eta: Option<Time>

    function Value(): Signature
      reads this
    {
      Signature(uuid, name, args, rawArgs, routingKey, priority, retryCount, retryTimeout, waitTime,
                retriesDone, taskTimeOut, ignoreWhenTaskNotRegistered, createdAt, eta)
    }

    constructor (sig: Signature)
      ensures Value() == sig
    {
      uuid, name, args, rawArgs := sig.uuid, sig.name, sig.args, sig.rawArgs;
      routingKey, priority := sig.routingKey, sig.priority;
      retryCount, retryTimeout, waitTime := sig.retryCount, sig.retryTimeout, sig.waitTime;
      retriesDone, taskTimeOut := sig.retriesDone, sig.taskTimeOut;
      ignoreWhenTaskNotRegistered := sig.ignoreWhenTaskNotRegistered;
      createdAt, eta := sig.createdAt, sig.eta;
    }
  }

  /** The broker as one consumer sees it: the list of everything it was asked for. */
  class Session {
    var events: seq<Event>

    constructor ()
      ensures events == []
    {
      events := [];
    }

    method PublishWithConfirm(sent: Sent, confirm: Confirm) returns (ok: bool)
      modifies this
      ensures events == old(events) + [Publishes(sent, confirm)]
      ensures ok == confirm.Confirmed?
    {
      events := events + [Publishes(sent, confirm)];
      ok := confirm.Confirmed?;
    }

    method Ack(tag: nat)
      modifies this
      ensures events == old(events) + [Event.Ack(tag)]
    {
      events := events + [Event.Ack(tag)];
    }

    method Nack(tag: nat, requeue: bool)
      modifies this
      ensures events == old(events) + [Event.Nack(tag, requeue)]
    {
      events := events + [Event.Nack(tag, requeue)];
    }
  }

  class TaskRegistrar {
    const cfg: Config
    const registered: set<string>
    const session: Session

    constructor (cfg: Config, registered: set<string>, session: Session)
      ensures this.cfg == cfg && this.registered == registered && this.session == session
    {
      this.cfg, this.registered, this.session := cfg, registered, session;
    }

    /** Fills in the routing key of the signature, after its wire form has been built. */
    method Publish(cell: SignatureCell, env: Readings) returns (ok: bool)
      modifies cell`routingKey, session
      ensures var published := Broker.Publish(cfg, old(cell.Value()), env.publishedAt);
        && ok == (published.Ok? && env.confirm.Confirmed?)
        && cell.Value() == (if published.Ok? then published.value.signature else old(cell.Value()))
        && session.events == old(session.events)
           + (if published.Ok? then [Publishes(published.value.sent, env.confirm)] else [])
      ensures cell.Value() == old(cell.Value()).(routingKey := cell.routingKey)
      ensures |session.events| > |old(session.events)| ==>
        var sent := session.events[|old(session.events)|].sent;
        && sent.msg.priority == old(cell.priority) && sent.key == cell.routingKey
        && Received(sent.msg) == Ok(Normal(old(cell.Value())))
    {
      PublishedIsReceived(cfg, cell.Value(), env.publishedAt);
      var prepared := Prepare(cell.Value());
      if prepared.Err? {
        return false;
      }
      var (headers, body) := prepared.value;
      var ttl := GetTaskTTL(cell.Value(), env.publishedAt);
      var expiration: Option<int> := None;
      if ttl > 0 {
        expiration := Some(ttl);
      } else if cell.routingKey == "" {
        cell.routingKey := GetRoutingKey(cfg);
      }
      ok := session.PublishWithConfirm(
        Sent(cell.routingKey, Publishing(OnWire(headers), body, cell.priority, expiration)), env.confirm);
    }

    method SendTask(cell: SignatureCell, env: Readings) returns (ok: bool)
      modifies cell, session
      ensures session.events == old(session.events) + SendEvents(cfg, old(cell.Value()), env)
      ensures ok == SendSucceeds(old(cell.Value()), env)
      ensures cell.Value() == AfterSend(cfg, old(cell.Value()), env)
      ensures cell.createdAt == if old(cell.createdAt).Some? then old(cell.createdAt) else Some(env.stampedAt)
      ensures cell.uuid == if old(cell.uuid) != "" then old(cell.uuid) else env.uuid
      ensures cell.Value() == old(cell.Value()).(uuid := cell.uuid, createdAt := cell.createdAt,
                                                 routingKey := cell.routingKey)
      ensures cell.routingKey in {old(cell.routingKey), GetRoutingKey(cfg)}
      ensures old(cell.routingKey) != "" ==> cell.routingKey == old(cell.routingKey)
    {
      PublishedIsReceived(cfg, Stamp(cell.Value(), env.uuid, env.stampedAt), env.publishedAt);
      if cell.uuid == "" {
        cell.uuid := env.uuid;
      }
      if cell.createdAt.None? {
        cell.createdAt := Some(env.stampedAt);
      }
      ok := Publish(cell, env);
    }

    method PushToTimeoutQueue(cell: SignatureCell, env: Readings) returns (ok: bool)
      modifies cell, session
      ensures var plan := TimeoutPlan(cfg, old(cell.Value()));
        && ok == PlanSucceeds(plan, env)
        && session.events == old(session.events) + PlanSends(cfg, plan, env)
        && cell.Value() == (if plan.Send? then AfterSend(cfg, plan.signature, env) else old(cell.Value()))
    {
      if cfg.timeoutQueue == "" {
        return true;
      }
      cell.taskTimeOut := 0;
      cell.routingKey := cfg.timeoutQueue;
      ok := SendTask(cell, env);
    }

    method RetryTask(cell: SignatureCell, env: Readings) returns (ok: bool)
      modifies cell, session
      ensures var plan := RetryPlan(cfg, old(cell.Value()), env.retriedAt);
        && ok == PlanSucceeds(plan, env)
        && session.events == old(session.events) + PlanSends(cfg, plan, env)
        && cell.Value() == (if plan.Send? then AfterSend(cfg, plan.signature, env) else old(cell.Value()))
    {
      ghost var plan := RetryPlan(cfg, cell.Value(), env.retriedAt);
      if cell.retryCount < 1 || cell.retriesDone > cell.retryCount - 1 {
        if cfg.failedQueue == "" {
          return true;
        }
        cell.routingKey := cfg.failedQueue;
        assert cell.Value() == plan.signature;
        ok := SendTask(cell, env);
        return;
      }
      var retryInterval := RetryInterval(cell.retriesDone + 1);
      if retryInterval > 0 {
        cell.retriesDone := cell.retriesDone + 1;
        cell.routingKey := cfg.delayedQueue;
        cell.eta := Some(env.retriedAt + retryInterval);
      }
      assert cell.Value() == plan.signature;
      ok := SendTask(cell, env);
    }

    /** Runs or forwards one decoded delivery and settles it. */
    method ProcessSignature(cell: SignatureCell, tag: nat, env: Readings) returns (result: Result<()>)
      modifies cell, session
      ensures session.events
        == old(session.events) + SignatureEvents(cfg, registered, old(cell.Value()), tag, env)
      ensures var late := CheckTaskTimeout(old(cell.Value()), env.checkedAt);
        result == if !late && old(cell.name) !in registered then Err(TaskMustBeFunc)
                  else if !late && env.report != Succeeded
                          && !PlanSucceeds(RetryPlan(cfg, old(cell.Value()), env.retriedAt), env)
                       then Err(PublishError)
                  else Ok(())
    {
      if CheckTaskTimeout(cell.Value(), env.checkedAt) {
        var pushed := PushToTimeoutQueue(cell, env);
        if pushed {
          session.Ack(tag);
          return Ok(());
        }
        session.Nack(tag, true);
        return Ok(());
      }
      if cell.name !in registered {
        session.Nack(tag, false);
        return Err(TaskMustBeFunc);
      }
      if env.report.Succeeded? {
        session.Ack(tag);
        return Ok(());
      }
      var retried := RetryTask(cell, env);
      if !retried {
        session.Nack(tag, true);
        return Err(PublishError);
      }
      session.Ack(tag);
      result := Ok(());
    }

    /** Processes one delivery: every delivery leaves exactly the events of `DeliveryEvents`. */
    method ProcessMessage(msg: Publishing, tag: nat, env: Readings) returns (result: Result<()>)
      modifies session
      ensures session.events == old(session.events) + DeliveryEvents(cfg, registered, msg, tag, env)
      ensures Received(msg).Err? ==>
        result == Err(if msg.body == Text("") then EmptyMessage else UndecodableMessage)
    {
      if msg.body == Text("") {
        session.Nack(tag, false);
        return Err(EmptyMessage);
      }
      var decoded: Result<Signature>;
      if "task_name" in msg.headers {
        decoded := Ok(SignatureFromHeaders(msg.headers, msg.body));
      } else {
        decoded := BytesToSignature(msg.body);
      }
      if decoded.Err? {
        session.Nack(tag, false);
        return Err(decoded.error);
      }
      var cell := new SignatureCell(decoded.value);
      result := ProcessSignature(cell, tag, env);
    }

    /** The consumer loop's step: an empty delivery is settled here, any other goes to a worker. */
    method ProcessDelivery(msg: Publishing, tag: nat) returns (handedOver: bool)
      modifies session
      ensures handedOver == (msg.body != Text(""))
      ensures session.events == old(session.events) + (if handedOver then [] else [Nack(tag, false)])
    {
      if msg.body == Text("") {
        session.Nack(tag, false);
        return false;
      }
      handedOver := true;
    }

    /** Consumer and worker together: whatever comes in is settled by one of the two, once and last. */
    method HandleDelivery(msg: Publishing, tag: nat, env: Readings)
      modifies session
      ensures session.events == old(session.events) + DeliveryEvents(cfg, registered, msg, tag, env)
      ensures var before := |old(session.events)|;
        && |session.events| > before
        && forall i :: before <= i < |session.events| ==>
             (Settles(session.events[i], tag) <==> i == |session.events| - 1)
    {
      SingleSettlement(cfg, registered, msg, tag, env);
      ghost var events := DeliveryEvents(cfg, registered, msg, tag, env);
      var handedOver := ProcessDelivery(msg, tag);
      if handedOver {
        var result := ProcessMessage(msg, tag, env);
      }
      assert session.events == old(session.events) + events;
    }
  }
}
