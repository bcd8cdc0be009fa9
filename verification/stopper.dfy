/** The "Stop accepting bets" message command: if it targets the running round's
    message and the stop sender is still in its slot, take the sender and fire it. */
module Stopper {
  import opened Common
  import opened BetState

  /** Does `target` name the registered round's message? */
  predicate Targets(w: World, target: Option<MessageId>) {
    w.round.Some? && target == Some(w.round.value.msg)
  }

  /** `bet_admin_stopper::run`. The stop-time update in the `bets` table is not modelled. */
  function Stop(w: World, target: Option<MessageId>): (r: (World, Reply))
    ensures r.1 == BetsStopped || r.1 == NotStoppable
    ensures r.1 == BetsStopped <==> Targets(w, target) && w.round.value.stopper
    ensures r.1 == NotStoppable ==> r.0 == w
    ensures r.0.balances == w.balances
    ensures r.1 == BetsStopped ==>
              && r.0.round.Some?
              && var (before, after) := (w.round.value, r.0.round.value);
              && !after.stopper && after.stopSent
              && after.msg == before.msg && after.teams == before.teams
              && after.ender == before.ender && after.endChannel == before.endChannel
              && after.phase == before.phase && after.pending == before.pending
  {
    if Targets(w, target) && w.round.value.stopper then
      (w.(round := Some(w.round.value.(stopper := false, stopSent := true))), BetsStopped)
    else
      (w, NotStoppable)
  }

  /** Once a stop has gone through, the slot is empty and every later stop is refused. */
  lemma SecondStopRejected(w: World, target: Option<MessageId>, target': Option<MessageId>)
    requires Stop(w, target).1 == BetsStopped
    ensures Stop(Stop(w, target).0, target') == (Stop(w, target).0, NotStoppable)
  {
  }

  /** A stop keeps the reachable-state invariant, and the part of it the source's handler keeps. */
  lemma StopKeepsInv(w: World, target: Option<MessageId>)
    ensures BaseInv(w) ==> BaseInv(Stop(w, target).0)
    ensures Inv(w) ==> Inv(Stop(w, target).0)
  {
  }
}
