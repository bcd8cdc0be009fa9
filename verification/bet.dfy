/** The `/bet` command: opening a round, the per-press bet handler (`prompt_bet` then
    `finalise_bet`), and the supervisor loop that waits for stop or end and settles.
    Concurrency is modelled as a sequence of atomic events, one at a time, in any order
    of these steps. */
module Bet {
  import opened Common
  import opened AmountText
  import opened Ledger
  import opened Odds
  import opened Settlement
  import opened BetState
  import opened Stopper
  import opened Ender

  /** Two rounds agree on everything but their teams and in-flight prompts. */
  predicate SameSignals(a: Round, b: Round) {
    && a.msg == b.msg
    && a.stopper == b.stopper && a.ender == b.ender
    && a.stopSent == b.stopSent && a.endChannel == b.endChannel
    && a.phase == b.phase
  }

  /** `bet::run` up to the loop: refuse when a round is registered, otherwise register
      a fresh one for the posted message `msg`. */
  function Open(w: World, msg: MessageId): (r: (World, Reply))
    ensures r.1 == BetOpened <==> w.round.None?
    ensures r.1 != BetOpened ==> r == (w, BetRunning)
    ensures r.1 == BetOpened ==> r.0 == World(w.balances, Some(NewRound(msg)))
  {
    if w.round.Some? then (w, BetRunning)
    else (World(w.balances, Some(NewRound(msg))), BetOpened)
  }

  /** A button press pulled from the interaction stream while the loop still runs:
      `prompt_bet` refuses a user who already has a bet on either team, otherwise
      shows the amount modal and waits. Presses after the loop has ended are not
      consumed. Interaction ids are unique, so a repeated id does not arise; it is ignored. */
  function Press(w: World, iid: InteractionId, u: UserId, side: Side): (r: (World, Reply))
    ensures r.1 == AmountPrompt || r.1 == AlreadyBet || r.1 == Silent
    ensures r.1 == AlreadyBet <==>
              w.round.Some? && w.round.value.phase == Accepting && iid !in w.round.value.pending
              && HasBet(w.round.value.teams, u)
    ensures r.1 == AmountPrompt <==>
              w.round.Some? && w.round.value.phase == Accepting && iid !in w.round.value.pending
              && !HasBet(w.round.value.teams, u)
    ensures r.1 != AmountPrompt ==> r.0 == w
    ensures r.1 == AmountPrompt ==>
              && w.round.Some? && w.round.value.phase == Accepting && !HasBet(w.round.value.teams, u)
              && r.0.balances == w.balances
              && r.0.round == Some(w.round.value.(pending := w.round.value.pending[iid := Prompt(u, side)]))
  {
    if w.round.None? || w.round.value.phase != Accepting || iid in w.round.value.pending then (w, Silent)
    else if HasBet(w.round.value.teams, u) then (w, AlreadyBet)
    else
      var rd := w.round.value;
      (w.(round := Some(rd.(pending := rd.pending[iid := Prompt(u, side)]))), AmountPrompt)
  }

  /** The amount modal was not submitted within the collector's timeout: the handler
      task ends with no effect. */
  function Timeout(w: World, iid: InteractionId): (r: (World, Reply))
    ensures r.1 == Silent && r.0.balances == w.balances
    ensures w.round.Some? ==>
              && r.0.round.Some?
              && r.0.round.value.pending == w.round.value.pending - {iid}
              && r.0.round.value.teams == w.round.value.teams
              && SameSignals(r.0.round.value, w.round.value)
    ensures w.round.None? ==> r.0 == w
  {
    if w.round.None? then (w, Silent)
    else
      var rd := w.round.value;
      (w.(round := Some(rd.(pending := rd.pending - {iid}))), Silent)
  }

  /** The part of `finalise_bet` after a successful parse: `db_setbet`, then, only if
      the debit went through, record the bet on the prompt's team. */
  function Commit(w: World, p: Prompt, amount: Amount): (r: (World, Reply))
    requires w.round.Some?
    ensures r.1 == BetPlaced(amount) || r.1 == NotEnoughCoins
    ensures r.1 == BetPlaced(amount) <==> BalanceOf(w.balances, p.user) >= amount
    ensures r.0.balances == SetBet(w.balances, p.user, amount).0
    ensures r.0.round.Some?
    ensures r.0.round.value == w.round.value.(teams := r.0.round.value.teams)
    ensures r.1 == NotEnoughCoins ==> r.0.round == w.round
    ensures r.1 == BetPlaced(amount) ==>
              r.0.round.value.teams == WithBet(w.round.value.teams, p.side, p.user, amount)
  {
    var rd := w.round.value;
    var (b', ok) := SetBet(w.balances, p.user, amount);
    if !ok then (World(b', w.round), NotEnoughCoins)
    else (World(b', Some(rd.(teams := WithBet(rd.teams, p.side, p.user, amount)))), BetPlaced(amount))
  }

  /** The amount modal of prompt `iid` was submitted with `text`, as the source does it:
      parse, then debit and record with no second duplicate check. Kept to exhibit the
      lost-stake race (see `DoubleSubmitAsWrittenLosesStake`); the model uses `Finalise`. */
  function FinaliseAsWritten(w: World, iid: InteractionId, text: string): (r: (World, Reply))
    ensures w.round.None? || iid !in w.round.value.pending ==> r == (w, Silent)
    ensures w.round.Some? && iid in w.round.value.pending ==>
              && r.0.round.Some?
              && r.0.round.value.pending == w.round.value.pending - {iid}
              && SameSignals(r.0.round.value, w.round.value)
    ensures r.1 == ParseFailed <==>
              w.round.Some? && iid in w.round.value.pending && ParseU32(text).None?
    ensures r.1 == ParseFailed ==>
              r.0.balances == w.balances && r.0.round.value.teams == w.round.value.teams
    ensures w.round.Some? && iid in w.round.value.pending && ParseU32(text).Some? ==>
              && var (p, amount) := (w.round.value.pending[iid], ParseU32(text).value);
              && r.0.balances == SetBet(w.balances, p.user, amount).0
              && r.1 == (if BalanceOf(w.balances, p.user) >= amount then BetPlaced(amount) else NotEnoughCoins)
              && r.0.round.value.teams ==
                   if r.1 == NotEnoughCoins then w.round.value.teams
                   else WithBet(w.round.value.teams, p.side, p.user, amount)
  {
    if w.round.None? || iid !in w.round.value.pending then (w, Silent)
    else
      var rd := w.round.value;
      var p := rd.pending[iid];
      var w1 := w.(round := Some(rd.(pending := rd.pending - {iid})));
      match ParseU32(text)
      case None => (w1, ParseFailed)
      case Some(amount) => Commit(w1, p, amount)
  }

  /** `finalise_bet` with the duplicate check repeated under the write lock, before the
      debit: a user whose other prompt already placed a bet is refused with no effect. */
  function Finalise(w: World, iid: InteractionId, text: string): (r: (World, Reply))
    ensures w.round.None? || iid !in w.round.value.pending ==> r == (w, Silent)
    ensures w.round.Some? && iid in w.round.value.pending ==>
              && r.0.round.Some?
              && r.0.round.value.pending == w.round.value.pending - {iid}
              && SameSignals(r.0.round.value, w.round.value)
    ensures r.1 == ParseFailed <==>
              w.round.Some? && iid in w.round.value.pending && ParseU32(text).None?
    ensures r.1 == Silent || r.1 == ParseFailed || r.1 == AlreadyBet ==>
              r.0.balances == w.balances && (r.0.round.Some? ==> r.0.round.value.teams == w.round.value.teams)
    ensures w.round.Some? && iid in w.round.value.pending && ParseU32(text).Some? ==>
              && var (p, amount) := (w.round.value.pending[iid], ParseU32(text).value);
              && r.1 == if HasBet(w.round.value.teams, p.user) then AlreadyBet
                        else if BalanceOf(w.balances, p.user) >= amount then BetPlaced(amount)
                        else NotEnoughCoins
    ensures r.1 == AlreadyBet ==> HasBet(w.round.value.teams, w.round.value.pending[iid].user)
    ensures r.1 == NotEnoughCoins ==>
              && var p := w.round.value.pending[iid];
              && r.0.round.value.teams == w.round.value.teams
              && r.0.balances == Coins(w.balances, p.user).0
              && BalanceOf(w.balances, p.user) < ParseU32(text).value
    ensures r.1.BetPlaced? ==>
              && var p := w.round.value.pending[iid];
              && ParseU32(text) == Some(r.1.amount)
              && !HasBet(w.round.value.teams, p.user)
              && r.0.round.value.teams == WithBet(w.round.value.teams, p.side, p.user, r.1.amount)
              && r.0.balances.Keys == w.balances.Keys + {p.user}
              && r.0.balances[p.user] == BalanceOf(w.balances, p.user) - r.1.amount >= 0
              && forall v :: v in w.balances && v != p.user ==> r.0.balances[v] == w.balances[v]
  {
    if w.round.None? || iid !in w.round.value.pending then (w, Silent)
    else
      var rd := w.round.value;
      var p := rd.pending[iid];
      var w1 := w.(round := Some(rd.(pending := rd.pending - {iid})));
      match ParseU32(text)
      case None => (w1, ParseFailed)
      case Some(amount) =>
        if HasBet(rd.teams, p.user) then (w1, AlreadyBet)
        else Commit(w1, p, amount)
  }

  /** `select!` takes the stop branch: the loop ends and the supervisor will wait for
      the end value, letting in-flight prompts finish. */
  function StopFired(w: World): (r: (World, Reply))
    ensures r.1 == Silent && r.0.balances == w.balances
    ensures r.0 != w <==> w.round.Some? && w.round.value.phase == Accepting && w.round.value.stopSent
    ensures r.0 != w ==> r.0.round == Some(w.round.value.(phase := AwaitingEnd))
  {
    if w.round.Some? && w.round.value.phase == Accepting && w.round.value.stopSent then
      (w.(round := Some(w.round.value.(phase := AwaitingEnd))), Silent)
    else (w, Silent)
  }

  /** `select!` takes the end branch: the winner is known, the loop ends and every
      in-flight bet prompt is aborted. */
  function EndFired(w: World): (r: (World, Reply))
    ensures r.1 == Silent && r.0.balances == w.balances
    ensures r.0 != w <==> w.round.Some? && w.round.value.phase == Accepting && w.round.value.endChannel.Sent?
    ensures r.0 != w ==>
              r.0.round == Some(w.round.value.(phase := Settling(w.round.value.endChannel.winner), pending := map[]))
  {
    if w.round.Some? && w.round.value.phase == Accepting && w.round.value.endChannel.Sent? then
      var rd := w.round.value;
      (w.(round := Some(rd.(phase := Settling(rd.endChannel.winner), pending := map[]))), Silent)
    else (w, Silent)
  }

  /** After the stop branch: `try_recv` (or `await`) on the end channel. A sent winner
      is taken; a closed channel counts as `true`, Blue; an empty one keeps waiting. */
  function EndReceived(w: World): (r: (World, Reply))
    ensures r.1 == Silent && r.0.balances == w.balances
    ensures r.0 != w <==> w.round.Some? && w.round.value.phase == AwaitingEnd && !w.round.value.endChannel.Empty?
    ensures r.0 != w ==>
              && r.0.round.Some?
              && r.0.round.value == w.round.value.(phase := r.0.round.value.phase)
              && r.0.round.value.phase == Settling(if w.round.value.endChannel.Sent? then w.round.value.endChannel.winner else Blue)
  {
    if w.round.Some? && w.round.value.phase == AwaitingEnd then
      var rd := w.round.value;
      match rd.endChannel
      case Empty => (w, Silent)
      case Sent(win) => (w.(round := Some(rd.(phase := Settling(win)))), Silent)
      case Closed => (w.(round := Some(rd.(phase := Settling(Blue)))), Silent)
    else (w, Silent)
  }

  /** The end of `bet::run`: once the winner is known and no prompt is in flight, pay
      the winners (`db_payout`) and deregister the round. */
  function Settle(w: World): (r: (World, Reply))
    ensures r.1 == Settled || r.1 == Silent
    ensures r.1 == Settled <==> w.round.Some? && w.round.value.phase.Settling? && |w.round.value.pending| == 0
    ensures r.1 == Silent ==> r.0 == w
    ensures r.1 == Settled ==>
              && r.0.round.None?
              && r.0.balances == PaidOut(w.balances, w.round.value.teams, w.round.value.phase.winner)
  {
    if w.round.Some? && w.round.value.phase.Settling? && |w.round.value.pending| == 0 then
      var rd := w.round.value;
      (World(PaidOut(w.balances, rd.teams, rd.phase.winner), None), Settled)
    else (w, Silent)
  }

  /** The `/coins` command, which only touches the `currency` table. */
  function CoinsCommand(w: World, u: UserId): (r: (World, Reply))
    ensures r.0.round == w.round
    ensures r.1 == CoinBalance(BalanceOf(w.balances, u))
    ensures r.0.balances == Coins(w.balances, u).0
  {
    var (b', n) := Coins(w.balances, u);
    (w.(balances := b'), CoinBalance(n))
  }

  datatype Event =
    | OpenRound(msg: MessageId)
    | PressButton(iid: InteractionId, user: UserId, side: Side)
    | SubmitAmount(iid: InteractionId, text: string)
    | PromptTimeout(iid: InteractionId)
    | StopCommand(target: Option<MessageId>)
    | EndCommand(target: Option<MessageId>, input: Option<string>)
    | StopBranch
    | EndBranch
    | EndArrives
    | SettleRound
    | CoinsQuery(user: UserId)

  /** Which `finalise_bet` handles a submitted amount: the source's, or the one with the
      duplicate check repeated before the debit. */
  datatype Handler = AsWritten | Corrected

  function Submit(h: Handler, w: World, iid: InteractionId, text: string): (World, Reply)
  {
    if h == AsWritten then FinaliseAsWritten(w, iid, text) else Finalise(w, iid, text)
  }

  /** One event of the bot, one at a time. Only `/bet` registers a round and only the
      settlement deregisters it; only a placed bet changes the teams; only a bet, a
      balance query or the settlement touches the coin table. */
  function Step(h: Handler, w: World, e: Event): (r: (World, Reply))
    ensures (w.round.None? && r.0.round.Some?) <==> e.OpenRound? && r.1 == BetOpened
    ensures (w.round.Some? && r.0.round.None?) <==> e.SettleRound? && r.1 == Settled
    ensures w.round.Some? && r.0.round.Some? && r.0.round.value.teams != w.round.value.teams ==>
              e.SubmitAmount? && r.1.BetPlaced?
    ensures r.0.balances != w.balances ==> e.SubmitAmount? || e.CoinsQuery? || e.SettleRound?
  {
    match e
    case OpenRound(msg) => Open(w, msg)
    case PressButton(iid, u, side) => Press(w, iid, u, side)
    case SubmitAmount(iid, text) => Submit(h, w, iid, text)
    case PromptTimeout(iid) => Timeout(w, iid)
    case StopCommand(target) => Stop(w, target)
    case EndCommand(target, input) => End(w, target, input)
    case StopBranch => StopFired(w)
    case EndBranch => EndFired(w)
    case EndArrives => EndReceived(w)
    case SettleRound => Settle(w)
    case CoinsQuery(u) => CoinsCommand(w, u)
  }

  /** The duplicate check before the debit keeps one team per user, and every bettor
      has a row in the coin table. */
  lemma FinaliseKeepsInv(w: World, iid: InteractionId, text: string)
    requires Inv(w)
    ensures Inv(Finalise(w, iid, text).0)
  {
  }

  /** With the corrected handler every event keeps the invariant. */
  lemma StepKeepsInv(w: World, e: Event)
    requires Inv(w)
    ensures Inv(Step(Corrected, w, e).0)
  {
    StepKeepsBaseInv(Corrected, w, e);
    if e.SubmitAmount? {
      FinaliseKeepsInv(w, e.iid, e.text);
    }
  }

  /** Both handlers, the source's included, keep `BaseInv`: balances stay non-negative,
      bettors have rows, and the senders and phase stay in step. */
  lemma StepKeepsBaseInv(h: Handler, w: World, e: Event)
    requires BaseInv(w)
    ensures BaseInv(Step(h, w, e).0)
  {
    match e
    case StopCommand(target) => StopKeepsInv(w, target);
    case EndCommand(target, input) => EndKeepsInv(w, target, input);
    case SettleRound =>
      if w.round.Some? && w.round.value.phase.Settling? && |w.round.value.pending| == 0 {
        PaidOutKeepsNonNegative(w.balances, w.round.value.teams, w.round.value.phase.winner);
      }
    case _ =>
  }

  /** Settlement pays the winner the end command sent: the phase's winner is the
      value in the end channel. */
  lemma SettledWinnerWasSent(w: World)
    requires Inv(w) && w.round.Some? && w.round.value.phase.Settling?
    ensures w.round.value.endChannel == Sent(w.round.value.phase.winner)
    ensures !w.round.value.ender
  {
  }

  /** A recorded bet is never changed or removed while its round lives: the only way
      a bet leaves the state is the settlement that deregisters the round. */
  lemma BetsAreNeverOverwritten(w: World, e: Event, side: Side, u: UserId)
    requires Inv(w) && w.round.Some? && u in w.round.value.teams.Of(side).bets
    ensures var w' := Step(Corrected, w, e).0;
            w'.round.Some? ==>
              u in w'.round.value.teams.Of(side).bets
              && w'.round.value.teams.Of(side).bets[u] == w.round.value.teams.Of(side).bets[u]
  {
    match e
    case SubmitAmount(iid, text) =>
      var (w', reply) := Finalise(w, iid, text);
      if reply.BetPlaced? {
        assert HasBet(w.round.value.teams, u);
      }
    case _ =>
  }
}
