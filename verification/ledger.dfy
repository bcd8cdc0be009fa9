/** The `currency` table: one integer coin balance per Discord user, created lazily
    with a starting grant the first time a user bets or asks for their balance.
    Each operation is the effect of the SQL statements the commands issue. */
module Ledger {
  import opened Common

  type Balances = map<UserId, int>

  /** The `coins` value `INSERT OR IGNORE` writes for an unseen user. */
  const StartingCoins: int := 1000

  /** The balance the table would report for `u` once the user is initialised. */
  function BalanceOf(b: Balances, u: UserId): int
  {
    if u in b then b[u] else StartingCoins
  }

  ghost predicate NonNegative(b: Balances) {
    forall u :: u in b ==> b[u] >= 0
  }

  /** `INSERT OR IGNORE INTO currency (discord_id, coins) VALUES (u, 1000)`. */
  function Register(b: Balances, u: UserId): (b': Balances)
    ensures b'.Keys == b.Keys + {u}
    ensures b'[u] == BalanceOf(b, u)
    ensures u in b ==> b' == b
    ensures forall v :: v in b ==> b'[v] == b[v]
  {
    if u in b then b else b[u := StartingCoins]
  }

  /** The `/coins` command: initialise the caller, then read their balance back. */
  function Coins(b: Balances, u: UserId): (r: (Balances, int))
    ensures u in r.0 && r.1 == r.0[u]
    ensures u in b ==> r.0 == b && r.1 == b[u]
    ensures u !in b ==> r.1 == StartingCoins
    ensures r.0.Keys == b.Keys + {u}
    ensures forall v :: v in b ==> r.0[v] == b[v]
  {
    var b' := Register(b, u);
    (b', b'[u])
  }

  /** `db_setbet`: initialise the user, and debit `amount` only when the balance
      covers it. The boolean says whether the debit happened. */
  function SetBet(b: Balances, u: UserId, amount: Amount): (r: (Balances, bool))
    ensures r.1 <==> BalanceOf(b, u) >= amount
    ensures r.0.Keys == b.Keys + {u}
    ensures r.0[u] == if r.1 then BalanceOf(b, u) - amount else BalanceOf(b, u)
    ensures forall v :: v in b && v != u ==> r.0[v] == b[v]
    ensures NonNegative(b) ==> NonNegative(r.0)
  {
    var b' := Register(b, u);
    if b'[u] < amount then (b', false)
    else (b'[u := b'[u] - amount], true)
  }

  /** `UPDATE currency SET coins = coins + n WHERE discord_id = u`: a user with
      no row is not affected. */
  function Credit(b: Balances, u: UserId, n: int): (b': Balances)
    ensures b'.Keys == b.Keys
    ensures u in b ==> b'[u] == b[u] + n
    ensures forall v :: v in b && v != u ==> b'[v] == b[v]
  {
    if u in b then b[u := b[u] + n] else b
  }

  /** Asking for one's balance twice changes nothing the second time. */
  lemma CoinsIsIdempotent(b: Balances, u: UserId)
    ensures Coins(Coins(b, u).0, u) == Coins(b, u)
  {
  }

  /** A refused debit leaves the table as a balance query would: the only effect is the
      lazy initialisation. */
  lemma RefusedBetOnlyInitialises(b: Balances, u: UserId, amount: Amount)
    requires !SetBet(b, u, amount).1
    ensures SetBet(b, u, amount).0 == Coins(b, u).0
  {
  }
}
