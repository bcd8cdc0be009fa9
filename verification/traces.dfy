/** Runs of the bot as sequences of events, and what holds along every run: the
    invariant, and the one-shot nature of stop, end and settlement per round. */
module Traces {
  import opened Common
  import opened AmountText
  import opened Ledger
  import opened Odds
  import opened BetState
  import opened Bet

  /** The bot as started: an empty coin table and no round. */
  const Initial: World := World(map[], None)

  /** The world after the events `evs`, submitted amounts handled by `h`. */
  function Run(h: Handler, w: World, evs: seq<Event>): World
    decreases |evs|
  {
    if |evs| == 0 then w else Run(h, Step(h, w, evs[0]).0, evs[1..])
  }

  /** With the corrected handler, every world reached from a world satisfying the
      invariant satisfies it too. */
  lemma {:induction false} RunKeepsInv(w: World, evs: seq<Event>)
    requires Inv(w)
    ensures Inv(Run(Corrected, w, evs))
    decreases |evs|
  {
    if |evs| > 0 {
      StepKeepsInv(w, evs[0]);
      RunKeepsInv(Step(Corrected, w, evs[0]).0, evs[1..]);
    }
  }

  /** With either handler, the source's included, every reached world keeps `BaseInv`:
      only `OneTeamPerUser` depends on the repeated duplicate check. */
  lemma {:induction false} RunKeepsBaseInv(h: Handler, w: World, evs: seq<Event>)
    requires BaseInv(w)
    ensures BaseInv(Run(h, w, evs))
    decreases |evs|
  {
    if |evs| > 0 {
      StepKeepsBaseInv(h, w, evs[0]);
      RunKeepsBaseInv(h, Step(h, w, evs[0]).0, evs[1..]);
    }
  }

  lemma InitialSatisfiesInv()
    ensures Inv(Initial)
  {
  }

  /** The three one-shot effects of a round. */
  datatype Shot = StopShot | EndShot | SettleShot

  function ShotReply(k: Shot): Reply {
    match k
    case StopShot => BetsStopped
    case EndShot => BetsEnded
    case SettleShot => Settled
  }

  /** The resource each one-shot effect consumes: the stop sender, the end sender, the
      registered round itself. */
  predicate Armed(w: World, k: Shot) {
    w.round.Some? &&
    match k
    case StopShot => w.round.value.stopper
    case EndShot => w.round.value.ender
    case SettleShot => true
  }

  /** How many times `k` takes effect along `evs`. */
  function Fired(h: Handler, w: World, evs: seq<Event>, k: Shot): nat
    decreases |evs|
  {
    if |evs| == 0 then 0
    else
      var (w', reply) := Step(h, w, evs[0]);
      (if reply == ShotReply(k) then 1 else 0) + Fired(h, w', evs[1..], k)
  }

  /** How many rounds are opened along `evs`. */
  function Opened(h: Handler, w: World, evs: seq<Event>): nat
    decreases |evs|
  {
    if |evs| == 0 then 0
    else
      var (w', reply) := Step(h, w, evs[0]);
      (if reply == BetOpened then 1 else 0) + Opened(h, w', evs[1..])
  }

  /** Taking effect consumes the resource. */
  lemma FiringDisarms(h: Handler, w: World, e: Event, k: Shot)
    requires Step(h, w, e).1 == ShotReply(k)
    ensures Armed(w, k) && !Armed(Step(h, w, e).0, k)
  {
  }

  /** Only opening a round provides the resources again. */
  lemma OnlyOpeningArms(h: Handler, w: World, e: Event, k: Shot)
    requires Step(h, w, e).1 != BetOpened && Armed(Step(h, w, e).0, k)
    ensures Armed(w, k)
  {
  }

  /** Along any run, each of stop, end and settlement takes effect at most once per
      round: at most once for the round already registered, plus once per round opened.
      This holds with either handler. */
  lemma {:induction false} AtMostOncePerRound(h: Handler, w: World, evs: seq<Event>, k: Shot)
    ensures Fired(h, w, evs, k) <= Opened(h, w, evs) + (if Armed(w, k) then 1 else 0)
    decreases |evs|
  {
    if |evs| > 0 {
      var (w', reply) := Step(h, w, evs[0]);
      AtMostOncePerRound(h, w', evs[1..], k);
      if reply == ShotReply(k) {
        FiringDisarms(h, w, evs[0], k);
      } else if reply != BetOpened && Armed(w', k) {
        OnlyOpeningArms(h, w, evs[0], k);
      }
    }
  }

  /** From start-up, no round is ever stopped, ended or settled more often than rounds are opened. */
  lemma FromStartUp(h: Handler, evs: seq<Event>, k: Shot)
    ensures Fired(h, Initial, evs, k) <= Opened(h, Initial, evs)
  {
    AtMostOncePerRound(h, Initial, evs, k);
  }

  /** "100" parses to 100 and "0" to 0. */
  lemma SmallAmountsParse()
    ensures ParseU32("100") == Some(100)
    ensures ParseU32("0") == Some(0)
  {
    assert Unsigned("100") == "100";
    assert DecimalValue("100") == 100 by {
      assert "100"[..2] == "10";
      assert "10"[..1] == "1";
      assert "1"[..0] == "";
    }
    assert Unsigned("0") == "0";
    assert "0"[..0] == "";
  }

  /** The world in which user 7 has two amount prompts open on round 5, and no coin row yet. */
  function TwoPrompts(first: Side, second: Side): World {
    World(map[], Some(NewRound(5).(pending := map[1 := Prompt(7, first), 2 := Prompt(7, second)])))
  }

  /** That world is reachable: open the round, then press twice before submitting. */
  lemma TwoPromptsReachable(h: Handler, first: Side, second: Side)
    ensures Run(h, Initial, [OpenRound(5), PressButton(1, 7, first), PressButton(2, 7, second)]) == TwoPrompts(first, second)
  {
    var evs := [OpenRound(5), PressButton(1, 7, first), PressButton(2, 7, second)];
    var w1 := Step(h, Initial, evs[0]).0;
    var w2 := Step(h, w1, evs[1]).0;
    var w3 := Step(h, w2, evs[2]).0;
    assert w3 == TwoPrompts(first, second);
    assert Run(h, w3, evs[1..][1..][1..]) == w3;
    assert Run(h, w2, evs[1..][1..]) == w3;
    assert Run(h, w1, evs[1..]) == w3;
  }

  /** Finding, as written: one user opens two amount prompts on the same team (two
      clients pressing at once both pass `prompt_bet`'s check), then submits both.
      Both debits go through, but the second insert overwrites the first bet, so
      100 of the 200 coins taken are recorded nowhere and can never be paid back. */
  lemma DoubleSubmitAsWrittenLosesStake()
    ensures var w1 := FinaliseAsWritten(TwoPrompts(Red, Red), 1, "100").0;
            var w2 := FinaliseAsWritten(w1, 2, "100").0;
            && 7 in w2.balances && w2.balances[7] == StartingCoins - 200
            && w2.round.Some? && w2.round.value.teams.red.bets == map[7 := 100]
  {
    SmallAmountsParse();
    var w1 := FinaliseAsWritten(TwoPrompts(Red, Red), 1, "100").0;
    assert w1.balances == map[7 := StartingCoins - 100];
    assert w1.round.value.teams.red.bets == map[7 := 100];
    assert w1.round.value.pending == map[2 := Prompt(7, Red)];
  }

  /** Finding, as written: the same race across the two teams leaves one user with a
      bet on both, so `OneTeamPerUser` fails. */
  lemma BothTeamsAsWritten()
    ensures var w1 := FinaliseAsWritten(TwoPrompts(Red, Blue), 1, "0").0;
            var w2 := FinaliseAsWritten(w1, 2, "0").0;
            w2.round.Some? && 7 in w2.round.value.teams.red.bets && 7 in w2.round.value.teams.blue.bets
  {
    SmallAmountsParse();
    var w1 := FinaliseAsWritten(TwoPrompts(Red, Blue), 1, "0").0;
    assert w1.round.value.teams.red.bets == map[7 := 0];
    assert w1.round.value.pending == map[2 := Prompt(7, Blue)];
  }

  /** Running `a` then `b` is running `a + b`. */
  lemma {:induction false} RunAppend(h: Handler, w: World, a: seq<Event>, b: seq<Event>)
    ensures Run(h, w, a + b) == Run(h, Run(h, w, a), b)
    decreases |a|
  {
    if |a| > 0 {
      assert (a + b)[1..] == a[1..] + b;
      RunAppend(h, Step(h, w, a[0]).0, a[1..], b);
    } else {
      assert a + b == b;
    }
  }

  /** So the source's handler does not keep `Inv`: from start-up, five events reach a
      world in which user 7 holds a bet on each team. */
  lemma AsWrittenRunBreaksInv()
    ensures !Inv(Run(AsWritten, Initial,
                     [OpenRound(5), PressButton(1, 7, Red), PressButton(2, 7, Blue), SubmitAmount(1, "0"), SubmitAmount(2, "0")]))
  {
    var opening := [OpenRound(5), PressButton(1, 7, Red), PressButton(2, 7, Blue)];
    var submits := [SubmitAmount(1, "0"), SubmitAmount(2, "0")];
    assert opening + submits ==
      [OpenRound(5), PressButton(1, 7, Red), PressButton(2, 7, Blue), SubmitAmount(1, "0"), SubmitAmount(2, "0")];
    RunAppend(AsWritten, Initial, opening, submits);
    TwoPromptsReachable(AsWritten, Red, Blue);
    BothTeamsAsWritten();
    var w1 := Step(AsWritten, TwoPrompts(Red, Blue), submits[0]).0;
    var w2 := Step(AsWritten, w1, submits[1]).0;
    assert Run(AsWritten, w2, submits[1..][1..]) == w2;
    assert Run(AsWritten, TwoPrompts(Red, Blue), submits) == w2;
    assert 7 in w2.round.value.teams.red.bets && 7 in w2.round.value.teams.blue.bets;
  }

  /** Corrected: with the duplicate check repeated before the debit, the second
      submission is refused and only the recorded bet's coins are taken. */
  lemma DoubleSubmitCorrected()
    ensures var (w1, reply1) := Finalise(TwoPrompts(Red, Red), 1, "100");
            var (w2, reply2) := Finalise(w1, 2, "100");
            && reply1 == BetPlaced(100) && reply2 == AlreadyBet
            && 7 in w2.balances && w2.balances[7] == StartingCoins - 100
            && w2.round.Some? && w2.round.value.teams.red.bets == map[7 := 100]
  {
    SmallAmountsParse();
    var w1 := Finalise(TwoPrompts(Red, Red), 1, "100").0;
    assert w1.balances == map[7 := StartingCoins - 100];
    assert w1.round.value.teams.red.bets == map[7 := 100];
    assert w1.round.value.pending == map[2 := Prompt(7, Red)];
  }
}
