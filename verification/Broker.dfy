/** Publishing: the binding table, the routing key and the time-to-live of a message. */
module Broker {
  import opened GoInt
  import opened Tasks
  import opened Backoff
  import opened Wire

  datatype Config = Config(
    taskQueue: string,
    exchangeType: string,
    bindingKey: string,
    delayedQueue: string,
    failedQueue: string,
    timeoutQueue: string
  )

  datatype Binding = Binding(queue: string, key: string)

  /** A message as the broker stores it; an expiration is in milliseconds. */
  datatype Publishing = Publishing(headers: Table, body: Body, priority: UInt8, expiration: Option<int>)

  datatype Sent = Sent(key: string, msg: Publishing)

  /** The signature as `Publish` leaves it, and what went out. */
  datatype Published = Published(signature: Signature, sent: Sent)

  predicate IsDirectExchange(cfg: Config) {
    cfg.exchangeType == "direct"
  }

  function GetRoutingKey(cfg: Config): string {
    if cfg.bindingKey == "" then cfg.taskQueue
    else if IsDirectExchange(cfg) then cfg.bindingKey
    else cfg.taskQueue
  }

  /** The queues declared at start-up and the keys they are bound with, all on the one exchange.
      An expired message of the delayed queue goes back to that exchange with `GetRoutingKey`. */
  function Bindings(cfg: Config): seq<Binding> {
    [Binding(cfg.taskQueue, cfg.bindingKey), Binding(cfg.delayedQueue, cfg.delayedQueue)]
    + (if cfg.failedQueue != "" then [Binding(cfg.failedQueue, cfg.failedQueue)] else [])
    + (if cfg.timeoutQueue != "" then [Binding(cfg.timeoutQueue, cfg.timeoutQueue)] else [])
  }

  /** A direct exchange passes a message to every queue bound with the message's routing key
      (AMQP 0-9-1, section 3.1.3.1). */
  function Route(cfg: Config, key: string): set<string> {
    set binding | binding in Bindings(cfg) && binding.key == key :: binding.queue
  }

  predicate DistinctQueues(cfg: Config) {
    && cfg.taskQueue != "" && cfg.delayedQueue != ""
    && cfg.taskQueue !in {cfg.delayedQueue, cfg.failedQueue, cfg.timeoutQueue}
    && cfg.delayedQueue !in {cfg.failedQueue, cfg.timeoutQueue}
  }

  predicate ValidConfig(cfg: Config) {
    && IsDirectExchange(cfg)
    && DistinctQueues(cfg)
    && cfg.bindingKey != ""
    && cfg.bindingKey !in {cfg.delayedQueue, cfg.failedQueue, cfg.timeoutQueue}
  }

  /** The queue a key leads to when the bindings do not overlap. */
  function QueueFor(cfg: Config, key: string): Option<string> {
    if key == cfg.bindingKey then Some(cfg.taskQueue)
    else if key == cfg.delayedQueue then Some(cfg.delayedQueue)
    else if key != "" && key in {cfg.failedQueue, cfg.timeoutQueue} then Some(key)
    else None
  }

  lemma BindingsOf(cfg: Config, binding: Binding)
    ensures binding in Bindings(cfg) <==>
      || binding == Binding(cfg.taskQueue, cfg.bindingKey)
      || binding == Binding(cfg.delayedQueue, cfg.delayedQueue)
      || (binding.queue == binding.key != "" && binding.key in {cfg.failedQueue, cfg.timeoutQueue})
  {
  }

  /** In a valid configuration every message reaches at most one queue. */
  lemma RouteIsExact(cfg: Config, key: string)
    requires ValidConfig(cfg)
    ensures Route(cfg, key) == (if QueueFor(cfg, key).Some? then {QueueFor(cfg, key).value} else {})
  {
  }

  /** Only a direct exchange with a binding key uses it as the default. */
  lemma DefaultKeyIs(cfg: Config)
    ensures GetRoutingKey(cfg) == (if cfg.exchangeType == "direct" && cfg.bindingKey != "" then cfg.bindingKey
                                   else cfg.taskQueue)
  {
  }

  /** The default routing key, which is also the dead-letter key of the delayed queue, leads back to
      the task queue exactly when the binding key is set. */
  lemma DefaultKeyReachesTaskQueueIff(cfg: Config)
    requires IsDirectExchange(cfg) && DistinctQueues(cfg)
    ensures cfg.taskQueue in Route(cfg, GetRoutingKey(cfg)) <==> cfg.bindingKey != ""
  {
    var binding := Binding(cfg.taskQueue, GetRoutingKey(cfg));
    BindingsOf(cfg, binding);
    assert cfg.taskQueue in Route(cfg, GetRoutingKey(cfg)) <==> binding in Bindings(cfg);
  }

  predicate SkipsDelay(sig: Signature) {
    sig.priority > 1 && sig.taskTimeOut != 0 && sig.createdAt.Some?
  }

  /** The time-to-live in milliseconds; 0 stands for none. */
  function GetTaskTTL(sig: Signature, now: Time): int {
    if sig.eta.None? then 0
    else if SkipsDelay(sig) then 5
    else if sig.eta.value > now then Saturate64(sig.eta.value - now) / MILLISECOND
    else 0
  }

  /** The body and the headers are built before the routing key is filled in. */
  function Publish(cfg: Config, sig: Signature, now: Time): Result<Published> {
    var prepared := Prepare(sig);
    if prepared.Err? then Err(prepared.error) else
    var (headers, body) := prepared.value;
    var ttl := GetTaskTTL(sig, now);
    var sig' := if ttl <= 0 && sig.routingKey == "" then sig.(routingKey := GetRoutingKey(cfg)) else sig;
    var expiration := if ttl > 0 then Some(ttl) else None;
    Ok(Published(sig', Sent(sig'.routingKey, Publishing(OnWire(headers), body, sig.priority, expiration))))
  }

  /** The signature a stored message stands for. */
  function Received(msg: Publishing): Result<Signature> {
    Decode(msg.headers, msg.body)
  }

  /** Whatever is published is received in its normal form. */
  lemma PublishedIsReceived(cfg: Config, sig: Signature, now: Time)
    ensures Publish(cfg, sig, now).Ok? <==> Marshals(sig)
    ensures Marshals(sig) ==> Received(Publish(cfg, sig, now).value.sent.msg) == Ok(Normal(sig))
  {
    RoundTrip(sig);
  }

  /** When a published signature ends up in a queue. Without a routing key it reaches the task queue
      exactly when no ETA is pending: a scheduled one goes out with the empty key, which no queue is
      bound to, so it is confirmed and gone. With a key it is stored exactly when a queue is bound to it. */
  lemma PublishedIsStoredIff(cfg: Config, sig: Signature, now: Time)
    requires ValidConfig(cfg) && Marshals(sig)
    ensures var stored := Route(cfg, Publish(cfg, sig, now).value.sent.key);
      && (sig.routingKey == "" ==> stored == (if GetTaskTTL(sig, now) <= 0 then {cfg.taskQueue} else {}))
      && (sig.routingKey != "" ==> (stored != {} <==> QueueFor(cfg, sig.routingKey).Some?))
  {
    RouteIsExact(cfg, Publish(cfg, sig, now).value.sent.key);
  }
}
