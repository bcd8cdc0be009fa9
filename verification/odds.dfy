/** The two teams of a round and the payout multiplier shown to bettors and used at
    settlement. The multiplier depends only on how many bets each team holds. */
module Odds {
  import opened Common

  /** `TeamState`: the bets placed on one team (user to amount) and its display name.
      The unused `bias` field is not modelled. */
  datatype Team = Team(name: string, bets: map<UserId, Amount>)

  /** `Teams = [TeamState; 2]`. */
  datatype Teams = Teams(red: Team, blue: Team) {

    function Of(side: Side): Team {
      if side == Red then red else blue
    }

    /** `teams.reverse()`. */
    function Swapped(): (t: Teams)
      ensures t.Of(Red) == Of(Blue) && t.Of(Blue) == Of(Red)
    {
      Teams(blue, red)
    }
  }

  /** `teams[side].bets.insert(u, amount)`: an earlier bet of `u` on that team is replaced. */
  function WithBet(teams: Teams, side: Side, u: UserId, amount: Amount): (t: Teams)
    ensures t.Of(side).bets == teams.Of(side).bets[u := amount]
    ensures t.Of(side).name == teams.Of(side).name
    ensures t.Of(side.Other()) == teams.Of(side.Other())
  {
    var team := teams.Of(side);
    var team' := team.(bets := team.bets[u := amount]);
    if side == Red then teams.(red := team') else teams.(blue := team')
  }

  /** `other_bets / bets` in floating point: `None` stands for the non-finite
      quotient (infinity or NaN) of a division by zero. */
  function Ratio(own: nat, other: nat): Option<real>
  {
    if own == 0 then None else Some(other as real / own as real)
  }

  /** `calc_payout(teams, swap)` with the bias fixed at 0: the multiplier paid to
      `side` is `1 + other/own`, or 2 when that is not a normal number or the other
      team has no bets. */
  function Multiplier(teams: Teams, side: Side): (m: real)
    ensures m > 1.0
    ensures |teams.Of(side).bets| == 0 || |teams.Of(side.Other()).bets| == 0 ==> m == 2.0
    ensures |teams.Of(side).bets| > 0 && |teams.Of(side.Other()).bets| > 0 ==>
              m * (|teams.Of(side).bets| as real) == (|teams.Of(side).bets| + |teams.Of(side.Other()).bets|) as real
  {
    var own := |teams.Of(side).bets|;
    var other := |teams.Of(side.Other()).bets|;
    match Ratio(own, other)
    case None => 2.0
    case Some(q) => if other == 0 then 2.0 else 1.0 + q
  }

  /** `calc_payout(teams, true)` is `calc_payout` of the reversed teams with `false`. */
  lemma MultiplierSwap(teams: Teams, side: Side)
    ensures Multiplier(teams, side) == Multiplier(teams.Swapped(), side.Other())
  {
  }

  /** Bet amounts never enter the multiplier: teams with the same bet counts pay alike. */
  lemma MultiplierIgnoresAmounts(t: Teams, u: Teams, side: Side)
    requires |t.red.bets| == |u.red.bets| && |t.blue.bets| == |u.blue.bets|
    ensures Multiplier(t, side) == Multiplier(u, side)
  {
  }

  /** When both teams hold bets the two sides' odds are reciprocal:
      `(m_red - 1) * (m_blue - 1) == 1`. */
  lemma MultipliersAreReciprocal(teams: Teams)
    requires |teams.red.bets| > 0 && |teams.blue.bets| > 0
    ensures (Multiplier(teams, Red) - 1.0) * (Multiplier(teams, Blue) - 1.0) == 1.0
  {
    var r := |teams.red.bets| as real;
    var b := |teams.blue.bets| as real;
    assert Multiplier(teams, Red) - 1.0 == b / r;
    assert Multiplier(teams, Blue) - 1.0 == r / b;
    QuotientsAreReciprocal(b, r);
  }

  lemma QuotientsAreReciprocal(b: real, r: real)
    requires b > 0.0 && r > 0.0
    ensures (b / r) * (r / b) == 1.0
  {
  }

  /** One field of the round's embed: team name, bet count and shown multiplier. */
  datatype Field = Field(name: string, bets: nat, payout: real)

  /** The numbers of `create_fields`: the first field is computed with `swap = false`,
      the second with `swap = true`. */
  function Fields(teams: Teams): (fs: seq<Field>)
    ensures |fs| == 2
    ensures fs[0] == Field(teams.red.name, |teams.red.bets|, Multiplier(teams, Red))
    ensures fs[1] == Field(teams.blue.name, |teams.blue.bets|, Multiplier(teams, Blue))
  {
    FieldsFrom(teams, [teams.red, teams.blue], false)
  }

  /** The `map` over `teams.each_ref()`, with the `swap` flag set after the first team. */
  function FieldsFrom(teams: Teams, rest: seq<Team>, swap: bool): (fs: seq<Field>)
    ensures |fs| == |rest|
    ensures forall i :: 0 <= i < |rest| ==>
              fs[i] == Field(rest[i].name, |rest[i].bets|, Multiplier(teams, if swap || i > 0 then Blue else Red))
    decreases |rest|
  {
    if |rest| == 0 then []
    else
      var side := if swap then Blue else Red;
      [Field(rest[0].name, |rest[0].bets|, Multiplier(teams, side))] + FieldsFrom(teams, rest[1..], true)
  }
}
