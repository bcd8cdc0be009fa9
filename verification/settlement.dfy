/** `db_payout`: every bettor on the winning team is credited their bet times the
    winning team's multiplier, truncated to an integer. Losing bettors only get a
    direct message, so their balances are left as they are. */
module Settlement {
  import opened Common
  import opened Ledger
  import opened Odds

  /** `((bet as f64) * payout) as i64` for a non-negative bet and positive multiplier. */
  function Winnings(bet: Amount, mult: real): (n: int)
    requires mult >= 1.0
    ensures bet <= n
    ensures n as real <= bet as real * mult < n as real + 1.0
  {
    (bet as real * mult).Floor
  }

  /** The balances after settlement, as a reference definition: each user with a row
      who bet on the winning team gains `Winnings`, nobody else changes. */
  function PaidOut(b: Balances, teams: Teams, winner: Side): (b': Balances)
    ensures b'.Keys == b.Keys
  {
    var mult := Multiplier(teams, winner);
    var won := teams.Of(winner).bets;
    map u | u in b :: if u in won then b[u] + Winnings(won[u], mult) else b[u]
  }

  /** Balances after crediting exactly the winners not in `todo`. */
  ghost function PartlyPaid(b: Balances, won: map<UserId, Amount>, mult: real, todo: set<UserId>): Balances
    requires mult >= 1.0
  {
    map u | u in b :: if u in won && u !in todo then b[u] + Winnings(won[u], mult) else b[u]
  }

  /** The `for (uid, bet) in &teams[winner].bets` loop of `db_payout`, issuing one
      `UPDATE currency SET coins = coins + …` per winner, in whatever order the
      `HashMap` yields them. */
  method DbPayout(b: Balances, teams: Teams, winner: Side) returns (b': Balances)
    ensures b' == PaidOut(b, teams, winner)
  {
    var won := teams.Of(winner).bets;
    var mult := Multiplier(teams, winner);
    var todo := won.Keys;
    b' := b;
    while todo != {}
      invariant todo <= won.Keys
      invariant b' == PartlyPaid(b, won, mult, todo)
      decreases todo
    {
      var u :| u in todo;
      b' := Credit(b', u, Winnings(won[u], mult));
      todo := todo - {u};
    }
  }

  /** Settlement credits every winning bettor with a row, and leaves losers and
      non-bettors exactly as they were. */
  lemma SettlementEffect(b: Balances, teams: Teams, winner: Side, u: UserId)
    requires u in b
    ensures u in teams.Of(winner).bets ==>
              PaidOut(b, teams, winner)[u] == b[u] + Winnings(teams.Of(winner).bets[u], Multiplier(teams, winner))
    ensures u !in teams.Of(winner).bets ==> PaidOut(b, teams, winner)[u] == b[u]
  {
  }

  /** A winner gets at least their stake back, and at most the stake times the multiplier. */
  lemma WinnerRecoversStake(b: Balances, teams: Teams, winner: Side, u: UserId)
    requires u in b && u in teams.Of(winner).bets
    ensures var bet := teams.Of(winner).bets[u];
            && b[u] + bet <= PaidOut(b, teams, winner)[u]
            && (PaidOut(b, teams, winner)[u] - b[u]) as real <= bet as real * Multiplier(teams, winner)
  {
  }

  /** Settlement never lowers a balance, so non-negative balances stay non-negative. */
  lemma PaidOutKeepsNonNegative(b: Balances, teams: Teams, winner: Side)
    requires NonNegative(b)
    ensures NonNegative(PaidOut(b, teams, winner))
    ensures forall u :: u in b ==> PaidOut(b, teams, winner)[u] >= b[u]
  {
  }
}
