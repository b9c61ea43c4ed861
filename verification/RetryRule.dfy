/** What happens to a delivered task: the start deadline, the retry rule and the one settlement of
    the delivery. These functions specify the methods of the registrar and drive the protocol. */
module RetryRule {
  import opened GoInt
  import opened Tasks
  import opened Backoff
  import opened Wire
  import opened Broker

  /** How an execution ended. A panic of the task and an overrun of the execution limit count as errors. */
  datatype Report = Succeeded | Errored | Panicked | Overran

  /** What became of a publish: confirmed by the broker, not stored, or stored and yet reported as
      an error (a lost confirm, a confirm timeout). */
  datatype Confirm = Confirmed | NotStored | StoredUnconfirmed

  /** What the registrar asks of the broker, in order. */
  datatype Event = Publishes(sent: Sent, confirm: Confirm) | Ack(tag: nat) | Nack(tag: nat, requeue: bool)

  /** The readings of the outside world during one delivery, in the order they are taken. */
  datatype Readings = Readings(
    checkedAt: Time,
    report: Report,
    retriedAt: Time,
    uuid: string,
    stampedAt: Time,
    publishedAt: Time,
    confirm: Confirm
  )

  /** A task is to be published again, or silently dropped because its queue has no name. */
  datatype Plan = Skip | Send(signature: Signature)

  predicate CheckTaskTimeout(sig: Signature, now: Time) {
    && sig.taskTimeOut != 0
    && sig.createdAt.Some?
    && Saturate64(now - sig.createdAt.value) >= sig.taskTimeOut * SECOND
  }

  /** The timeout is cleared so that the task can be run from the timeout queue. */
  function TimeoutPlan(cfg: Config, sig: Signature): Plan {
    if cfg.timeoutQueue == "" then Skip
    else Send(sig.(taskTimeOut := 0, routingKey := cfg.timeoutQueue))
  }

  predicate Exhausted(sig: Signature) {
    sig.retryCount < 1 || sig.retriesDone > sig.retryCount - 1
  }

  function RetryPlan(cfg: Config, sig: Signature, now: Time): Plan {
    if Exhausted(sig) then
      if cfg.failedQueue == "" then Skip else Send(sig.(routingKey := cfg.failedQueue))
    else
      var interval := RetryInterval(sig.retriesDone + 1);
      if interval > 0 then
        Send(sig.(retriesDone := sig.retriesDone + 1, routingKey := cfg.delayedQueue, eta := Some(now + interval)))
      else
        Send(sig)
  }

  /** The identity and the creation time are filled in once. */
  function Stamp(sig: Signature, uuid: string, now: Time): Signature {
    var sig := if sig.uuid == "" then sig.(uuid := uuid) else sig;
    if sig.createdAt.None? then sig.(createdAt := Some(now)) else sig
  }

  function SendEvents(cfg: Config, sig: Signature, env: Readings): seq<Event> {
    var published := Publish(cfg, Stamp(sig, env.uuid, env.stampedAt), env.publishedAt);
    if published.Err? then [] else [Publishes(published.value.sent, env.confirm)]
  }

  /** The signature in memory after it has been sent, or after the attempt. */
  function AfterSend(cfg: Config, sig: Signature, env: Readings): Signature {
    var stamped := Stamp(sig, env.uuid, env.stampedAt);
    var published := Publish(cfg, stamped, env.publishedAt);
    if published.Ok? then published.value.signature else stamped
  }

  predicate SendSucceeds(sig: Signature, env: Readings) {
    Marshals(sig) && env.confirm.Confirmed?
  }

  function PlanSends(cfg: Config, plan: Plan, env: Readings): seq<Event> {
    if plan.Skip? then [] else SendEvents(cfg, plan.signature, env)
  }

  predicate PlanSucceeds(plan: Plan, env: Readings) {
    plan.Send? ==> SendSucceeds(plan.signature, env)
  }

  /** A failed publish puts the unmodified delivery back in the queue. */
  function PlanEvents(cfg: Config, plan: Plan, tag: nat, env: Readings): seq<Event> {
    PlanSends(cfg, plan, env) + [if PlanSucceeds(plan, env) then Ack(tag) else Nack(tag, true)]
  }

  function SignatureEvents(cfg: Config, registered: set<string>, sig: Signature, tag: nat, env: Readings): seq<Event> {
    if CheckTaskTimeout(sig, env.checkedAt) then PlanEvents(cfg, TimeoutPlan(cfg, sig), tag, env)
    else if sig.name !in registered then [Nack(tag, false)]
    else if env.report.Succeeded? then [Ack(tag)]
    else PlanEvents(cfg, RetryPlan(cfg, sig, env.retriedAt), tag, env)
  }

  /** Everything one delivery makes the registrar ask of the broker. */
  function DeliveryEvents(cfg: Config, registered: set<string>, msg: Publishing, tag: nat, env: Readings): seq<Event> {
    match Received(msg)
    case Err(_) => [Nack(tag, false)]
    case Ok(sig) => SignatureEvents(cfg, registered, sig, tag, env)
  }

  predicate Settles(event: Event, tag: nat) {
    !event.Publishes? && event.tag == tag
  }

  /** Every delivery is settled exactly once, as the last thing done, whatever the world does. */
  lemma SingleSettlement(cfg: Config, registered: set<string>, msg: Publishing, tag: nat, env: Readings)
    ensures var events := DeliveryEvents(cfg, registered, msg, tag, env);
      && |events| >= 1
      && forall i :: 0 <= i < |events| ==> (Settles(events[i], tag) <==> i == |events| - 1)
  {
  }

  lemma SendsIffMarshals(cfg: Config, env: Readings)
    ensures forall sig :: SendEvents(cfg, sig, env) == [] <==> !Marshals(sig)
  {
  }

  /** An acknowledged delivery has been executed with success, or its successor has been confirmed
      before, or the queue it was meant for has no name. */
  lemma AckIsEarned(cfg: Config, registered: set<string>, msg: Publishing, tag: nat, env: Readings)
    requires var events := DeliveryEvents(cfg, registered, msg, tag, env); events[|events| - 1] == Ack(tag)
    ensures Received(msg).Ok?
    ensures var events := DeliveryEvents(cfg, registered, msg, tag, env);
      var sig := Received(msg).value;
      var timedOut := CheckTaskTimeout(sig, env.checkedAt);
      || (!timedOut && sig.name in registered && env.report.Succeeded? && events == [Ack(tag)])
      || (|events| == 2 && events[0].Publishes? && events[0].confirm.Confirmed?)
      || (timedOut && cfg.timeoutQueue == "")
      || (!timedOut && Exhausted(sig) && cfg.failedQueue == "")
  {
    SendsIffMarshals(cfg, env);
  }

  /** Where the next message of a delivery that cannot be settled at once goes, if anywhere. */
  datatype Target = Nowhere | ToQueue(queue: string) | Again

  function TargetOf(cfg: Config, sig: Signature, late: bool): Target {
    if late then if cfg.timeoutQueue == "" then Nowhere else ToQueue(cfg.timeoutQueue)
    else if sig.retryCount < 1 || sig.retriesDone >= sig.retryCount then
      if cfg.failedQueue == "" then Nowhere else ToQueue(cfg.failedQueue)
    else if RetryInterval(sig.retriesDone + 1) > 0 then ToQueue(cfg.delayedQueue)
    else Again
  }

  /** How a delivery ends, in every case: discarded if it is not decoded or not registered, acknowledged
      after a success or when the queue it is meant for has no name, and otherwise published again, under
      the name of that queue, and acknowledged exactly if the publish is confirmed. */
  lemma DeliveryOutcome(cfg: Config, registered: set<string>, msg: Publishing, tag: nat, env: Readings)
    ensures var events := DeliveryEvents(cfg, registered, msg, tag, env);
      if Received(msg).Err? then events == [Nack(tag, false)] else
      var sig := Received(msg).value;
      var late := CheckTaskTimeout(sig, env.checkedAt);
      if !late && sig.name !in registered then events == [Nack(tag, false)]
      else if !late && env.report == Succeeded then events == [Ack(tag)]
      else if TargetOf(cfg, sig, late) == Nowhere then events == [Ack(tag)]
      else if sig.rawArgs == Some(Text("")) then events == [Nack(tag, true)]
      else
        && |events| == 2 && events[0].Publishes? && events[0].confirm == env.confirm
        && events[1] == (if env.confirm == Confirmed then Ack(tag) else Nack(tag, true))
        && (TargetOf(cfg, sig, late).ToQueue? && TargetOf(cfg, sig, late).queue != "" ==>
              events[0].sent.key == TargetOf(cfg, sig, late).queue)
  {
    hide Decode, BuildHeaders, RetryInterval, CheckTaskTimeout, GetTaskTTL, OnWire;
    if Received(msg).Ok? {
      var sig := Received(msg).value;
      assert Marshals(sig) <==> sig.rawArgs != Some(Text(""));
    }
  }
}
