/** The "End and finalise bets" message command: if it targets the running round's
    message, ask for the winner ("1" for Red, "2" for Blue); on a valid answer take the
    end sender, if still present, and send the winner through it. */
module Ender {
  import opened Common
  import opened BetState
  import opened Stopper

  /** The winner text box: exactly "1" is Red (`false`), exactly "2" is Blue (`true`). */
  function ParseWinner(input: string): (r: Option<Side>)
    ensures r == Some(Red) <==> input == "1"
    ensures r == Some(Blue) <==> input == "2"
    ensures r.None? <==> input != "1" && input != "2"
  {
    if input == "1" then Some(Red)
    else if input == "2" then Some(Blue)
    else None
  }

  /** `bet_admin_ender::run`. `input` is the submitted winner modal, or `None` when it
      timed out. */
  function End(w: World, target: Option<MessageId>, input: Option<string>): (r: (World, Reply))
    ensures r.1 == BetsEnded || r.1 == InvalidOrEnded || r.1 == NotEndable
    ensures r.1 == NotEndable <==> !Targets(w, target) || input.None?
    ensures r.1 == BetsEnded <==>
              Targets(w, target) && input.Some? && ParseWinner(input.value).Some? && w.round.value.ender
    ensures r.1 != BetsEnded ==> r.0 == w
    ensures r.0.balances == w.balances
    ensures r.1 == BetsEnded ==>
              && r.0.round.Some?
              && var (before, after) := (w.round.value, r.0.round.value);
              && !after.ender && after.endChannel == Sent(ParseWinner(input.value).value)
              && after.msg == before.msg && after.teams == before.teams
              && after.stopper == before.stopper && after.stopSent == before.stopSent
              && after.phase == before.phase && after.pending == before.pending
  {
    if !Targets(w, target) || input.None? then (w, NotEndable)
    else
      match ParseWinner(input.value)
      case None => (w, InvalidOrEnded)
      case Some(win) =>
        if w.round.value.ender then
          (w.(round := Some(w.round.value.(ender := false, endChannel := Sent(win)))), BetsEnded)
        else (w, InvalidOrEnded)
  }

  /** The end sender is taken by the first successful end: a second end is refused and
      the value already sent stays as it was. */
  lemma SecondEndRejected(w: World, target: Option<MessageId>, input: Option<string>,
                          target': Option<MessageId>, input': Option<string>)
    requires End(w, target, input).1 == BetsEnded
    ensures End(End(w, target, input).0, target', input').1 != BetsEnded
    ensures End(End(w, target, input).0, target', input').0 == End(w, target, input).0
  {
  }

  /** Ending needs no prior stop: a freshly opened round can be ended straight away,
      and its stop sender stays in place. */
  lemma EndWithoutStop(w: World, msg: MessageId, input: string)
    requires w.round == Some(NewRound(msg))
    requires input == "1" || input == "2"
    ensures End(w, Some(msg), Some(input)).1 == BetsEnded
    ensures End(w, Some(msg), Some(input)).0.round.value.stopper
  {
  }

  /** An end keeps the reachable-state invariant, and the part of it the source's handler keeps. */
  lemma EndKeepsInv(w: World, target: Option<MessageId>, input: Option<string>)
    ensures BaseInv(w) ==> BaseInv(End(w, target, input).0)
    ensures Inv(w) ==> Inv(End(w, target, input).0)
  {
  }
}
