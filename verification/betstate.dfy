/** The state shared by the betting commands: the registered round (`CtxState`,
    holding a `BetState`), the coin table, and the replies the commands send. */
module BetState {
  import opened Common
  import opened Ledger
  import opened Odds

  /** Where the supervisor loop in `bet::run` is. `Accepting`: the `select!` loop still
      consumes button presses. `AwaitingEnd`: the stop branch fired and the supervisor
      waits for the end value. `Settling(w)`: the winner is known; settlement runs once
      no bet prompt is still in flight. */
  datatype Phase = Accepting | AwaitingEnd | Settling(winner: Side)

  /** The end oneshot channel seen from its receiver: nothing sent yet, a winner
      sent, or the sender dropped without sending. */
  datatype EndChannel = Empty | Sent(winner: Side) | Closed

  /** A bet handler task waiting for its user to submit the amount modal. */
  datatype Prompt = Prompt(user: UserId, side: Side)

  /** `BetState` plus what the supervisor holds: the message id, both teams, whether the
      `stopper`/`ender` senders are still in their slots, what each channel carries,
      the supervisor phase and the in-flight bet prompts, keyed by interaction id. */
  datatype Round = Round(
    msg: MessageId,
    teams: Teams,
    stopper: bool,
    ender: bool,
    stopSent: bool,
    endChannel: EndChannel,
    phase: Phase,
    pending: map<InteractionId, Prompt>)

  /** The bot's state: the `currency` table and the registered round, if any. */
  datatype World = World(balances: Balances, round: Option<Round>)

  /** What a command answers (the ephemeral reply texts of the source), or `Silent`
      for supervisor steps and ignored events. */
  datatype Reply =
    | Silent
    | BetRunning
    | BetOpened
    | AlreadyBet
    | AmountPrompt
    | ParseFailed
    | NotEnoughCoins
    | BetPlaced(amount: Amount)
    | BetsStopped
    | NotStoppable
    | BetsEnded
    | InvalidOrEnded
    | NotEndable
    | CoinBalance(coins: int)
    | Settled

  /** The duplicate check of `prompt_bet`: does `u` already have a bet on either team? */
  predicate HasBet(teams: Teams, u: UserId) {
    u in teams.red.bets || u in teams.blue.bets
  }

  /** The round registered by `bet::run` once its message is posted and both
      senders are stored: two empty teams named Red and Blue. */
  function NewRound(msg: MessageId): (r: Round)
    ensures r.msg == msg && r.stopper && r.ender
    ensures |r.teams.red.bets| == 0 && |r.teams.blue.bets| == 0
    ensures r.teams.red.name == "Red" && r.teams.blue.name == "Blue"
    ensures r.phase == Accepting && |r.pending| == 0
  {
    Round(msg, Teams(Team("Red", map[]), Team("Blue", map[])), true, true, false, Empty, Accepting, map[])
  }

  /** No user holds a bet on both teams. */
  ghost predicate OneTeamPerUser(teams: Teams) {
    forall u :: u in teams.red.bets ==> u !in teams.blue.bets
  }

  /** What every round the commands can produce keeps, whichever version of
      `finalise_bet` runs: every bettor has a row in the coin table, each sender is in
      its slot exactly until it is used, the end sender is only ever consumed by
      `send`, and the supervisor phase follows the signals. */
  ghost predicate SignalInv(r: Round, b: Balances) {
    && r.teams.red.bets.Keys <= b.Keys
    && r.teams.blue.bets.Keys <= b.Keys
    && (r.stopper <==> !r.stopSent)
    && (r.ender <==> r.endChannel == Empty)
    && r.endChannel != Closed
    && (r.phase == AwaitingEnd ==> r.stopSent)
    && (r.phase.Settling? ==> r.endChannel == Sent(r.phase.winner))
  }

  /** What holds of every round the commands can produce. */
  ghost predicate RoundInv(r: Round, b: Balances) {
    OneTeamPerUser(r.teams) && SignalInv(r, b)
  }

  /** What the handler as the source writes it keeps: balances are never negative and
      the registered round keeps `SignalInv`. */
  ghost predicate BaseInv(w: World) {
    && NonNegative(w.balances)
    && (w.round.Some? ==> SignalInv(w.round.value, w.balances))
  }

  /** What holds of every reachable world: `BaseInv`, and no user bets on both teams. */
  ghost predicate Inv(w: World) {
    && BaseInv(w)
    && (w.round.Some? ==> OneTeamPerUser(w.round.value.teams))
  }
}
