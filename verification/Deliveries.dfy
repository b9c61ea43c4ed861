/** The registrar's handling of one delivery is a walk of the step system. */
module Deliveries {
  import opened Backoff
  import opened Wire
  import opened Broker
  import opened RetryRule
  import opened Protocol
  import opened Lineage

  /** A delivered copy after its execution, if it gets one. */
  function Executed(w: World, c: Copy, env: Readings): Copy {
    var begun := BeginCopy(w, c, env.checkedAt);
    if begun.phase.Running? then FinishCopy(w, begun, env.report, env.retriedAt) else begun
  }

  /** And after its republish, if there is one. */
  function Handled(w: World, c: Copy, env: Readings, next: nat): Copy {
    var executed := Executed(w, c, env);
    if executed.phase.Sending? then SentCopy(w, executed, env.uuid, env.publishedAt, env.confirm, next) else executed
  }

  function SettlementOf(verdict: Verdict, tag: nat): Event {
    match verdict
    case Requeue => Nack(tag, true)
    case Discard => Nack(tag, false)
    case _ => Ack(tag)
  }

  /** The steps Begin, Finish and Republish, taken with the readings of one delivery, decide on the
      very settlement the registrar asks for, and publish the very message it publishes before. */
  lemma DeliveryIsStepped(w: World, c: Copy, tag: nat, env: Readings, next: nat)
    requires c.phase.Delivered? && (Received(c.msg).Ok? ==> Stamped(Received(c.msg).value))
    ensures var events := DeliveryEvents(w.cfg, w.registered, c.msg, tag, env);
      var executed, handled := Executed(w, c, env), Handled(w, c, env, next);
      && handled.phase.Settling?
      && events == (if executed.phase.Sending?
                    then var published := Republished(w, executed, env.uuid, env.publishedAt);
                      if published.Ok? then [Publishes(published.value.sent, env.confirm)] else []
                    else [])
                   + [SettlementOf(handled.phase.verdict, tag)]
  {
    hide Decode, Prepare, RetryInterval, CheckTaskTimeout, GetTaskTTL;
    var executed := Executed(w, c, env);
    if executed.phase.Sending? {
      PublishedIsReceived(w.cfg, executed.phase.out, env.publishedAt);
      StampIsSettled(executed.phase.out, env.uuid, env.publishedAt);
      StampIsSettled(executed.phase.out, env.uuid, env.stampedAt);
    }
  }
}
