# Betting rounds and the snipe cache of a Discord bot, in Dafny

This project models the core of a Discord bot. The bot runs betting rounds with two
fixed teams, Red and Blue, and keeps a "snipe" cache of recently edited or deleted
messages. Discord transport, SQL and tokio are abstracted away; what remains is pure
transition functions over immutable state.

- **Coin table** (`ledger.dfy`, module `Ledger`): a map from user to integer coins.
  A user is initialised with 1000 coins on first contact (`INSERT OR IGNORE`). A bet is
  debited only when the balance covers it (`db_setbet`), winners are credited
  (`UPDATE … coins + n`), and `/coins` reads the balance back.
- **Amount parsing** (`amount.dfy`, module `AmountText`): `str::parse::<u32>` of the
  bet-amount text box.
- **Payout multiplier** (`odds.dfy`, module `Odds`): `calc_payout` over exact `real`s.
  It depends only on the two teams' bet counts. Also the numbers that `create_fields`
  shows.
- **Settlement** (`settlement.dfy`, module `Settlement`): `db_payout`. The method is a
  loop over the winners, proved equal to a closed-form reference definition.
- **Round state** (`betstate.dfy`, module `BetState`): `BetState`, the world (coin
  table plus the registered round), the replies, and the reachable-state invariant.
- **Stop and end commands** (`stopper.dfy`, `ender.dfy`): the one-shot `Option::take`
  of the `stopper` and `ender` sender slots.
- **The `/bet` command** (`bet.dfy`, module `Bet`): opening a round, the per-press
  handler (`prompt_bet`, then `finalise_bet`), and the supervisor loop's `select!`
  branches and settlement. Concurrency becomes one atomic event at a time, in any
  order of these steps. `Step` dispatches an event to either the source's
  `finalise_bet` or the corrected one (see "## Findings").
- **Runs** (`traces.dfy`, module `Traces`): the invariant holds along every run. Stop,
  end and settlement each take effect at most once per opened round. The module also
  holds the concrete runs of the finding below.
- **Snipe** (`snipe.dfy`, module `Snipe`): per-channel deques bounded at 51 messages,
  the `Edit`/`Delete` entries, and the 30-second freshness window with an explicit `now`.

Facts about the code that the model keeps as they are:
- Odds are computed from the two teams' bet counts, not from the amounts staked
  (`bet.rs:52-53`).
- The parse-failure message at `bet.rs:136` asks for a "positive" number, yet `0`
  parses and is accepted as a bet, as are a leading `+` and leading zeros.
- Settlement reads the in-memory teams, not the `bets` table.
- A closed end channel counts as a Blue win (`bet.rs:387`). The model includes that
  branch, but no event produces a closed channel, because the sender is only ever
  consumed by `send`. The invariant `SignalInv` records this.
- After a stop, the source waits for the end value first and then joins the in-flight
  handlers. So a prompt can still commit a bet after the end value has been sent. In
  the model such prompts stay live in `AwaitingEnd` and `Settling`, and settlement
  waits until none are left. When end fires first, every in-flight prompt is aborted.

## Model

| member | source | states |
|---|---|---|
| AmountText.ParseU32 | src/commands/bet.rs:102 | an empty text or one starting with `-` never parses; a successful parse read a non-empty digit string after the optional `+` |
| AmountText.ParseShowRoundTrip | src/commands/bet.rs:101-102 | every `u32` written in decimal, with or without a leading `+`, parses back to itself |
| AmountText.ParseRejectsOverflow | src/commands/bet.rs:132-139 | a decimal number above `u32::MAX` is rejected, not wrapped |
| AmountText.ParseRejectsNonDigit | src/commands/bet.rs:102 | any non-digit after the optional `+` makes the parse fail |
| AmountText.ParseIsInverseOfShow | src/commands/bet.rs:102 | a text that parses to `n` is an optional `+`, then zero or more `0`s, then `n` printed in decimal |
| AmountText.LeadingZerosAccepted | src/commands/bet.rs:102 | conversely, `n` printed after any number of `0`s, with or without a leading `+`, parses to `n` |
| Ledger.Register | src/commands/profile.rs:17-24 | an unseen user gets 1000 coins, an existing balance is left alone, no other user changes |
| Ledger.Coins | src/commands/profile.rs:14-35 | the reported value is the user's balance after initialisation (1000 when unseen), and no other balance changes |
| Ledger.CoinsIsIdempotent | src/commands/profile.rs:17-24 | a second balance query changes nothing |
| Ledger.SetBet | src/commands/bet.rs:193-231 | unseen users get 1000 first; the debit happens iff the balance covers the amount, subtracts exactly the amount, touches no other user and never makes a balance negative |
| Ledger.RefusedBetOnlyInitialises | src/commands/bet.rs:216-218 | a refused debit has the same effect on the table as a balance query |
| Ledger.Credit | src/commands/bet.rs:245-255 | a winner's row gains exactly `n`; a user without a row and every other user are unaffected |
| Odds.Multiplier | src/commands/bet.rs:47-60 | the multiplier is always above 1; it is 2 when either team has no bets; otherwise own × multiplier = own + other (i.e. `1 + other/own`) |
| Odds.MultiplierSwap | src/commands/bet.rs:47-53 | `calc_payout(teams, true)` equals `calc_payout` of the reversed teams with `false` |
| Odds.MultiplierIgnoresAmounts | src/commands/bet.rs:52-53 | teams with equal bet counts get equal multipliers, whatever the amounts |
| Odds.MultipliersAreReciprocal | src/commands/bet.rs:52-57 | with bets on both teams, `(m_red − 1)(m_blue − 1) = 1` |
| Odds.Fields | src/commands/bet.rs:62-72 | the embed shows, per team, its name, its bet count and exactly the multiplier settlement pays that team |
| Odds.WithBet | src/commands/bet.rs:120 | `insert` on one team: the user's amount replaces any earlier one there; the other team is unchanged |
| Settlement.Winnings | src/commands/bet.rs:244 | the credit is the truncation of bet × multiplier: at least the bet, within 1 below the exact product |
| Settlement.DbPayout | src/commands/bet.rs:237-264 | crediting the winners one row at a time, in any order, yields the reference balances `PaidOut` |
| Settlement.SettlementEffect | src/commands/bet.rs:242-274 | each winning bettor gains `trunc(bet × multiplier)`; losing bettors and non-bettors are unchanged |
| Settlement.WinnerRecoversStake | src/commands/bet.rs:244 | a winner gets back at least their stake and at most stake × multiplier |
| Settlement.PaidOutKeepsNonNegative | src/commands/bet.rs:244-255 | settlement never lowers a balance |
| BetState.NewRound | src/commands/bet.rs:317-347 | a new round has two empty teams named Red and Blue, both senders present, and the loop accepting presses |
| Stopper.Stop | src/commands/bet_admin_stopper.rs:14-37 | a stop succeeds iff a round is registered, the target is its message and `stopper` is present; success empties `stopper`, sends the signal and changes nothing else (not `ender`, teams, message or balances); a refusal changes nothing |
| Stopper.SecondStopRejected | src/commands/bet_admin_stopper.rs:17-37 | after a successful stop every further stop is refused without effect |
| Stopper.StopKeepsInv | src/commands/bet_admin_stopper.rs:15-33 | a stop keeps the reachable-state invariant, and the part of it the source's handler keeps |
| Ender.ParseWinner | src/commands/bet_admin_ender.rs:45-53 | exactly "1" means Red (`false`), exactly "2" means Blue (`true`), anything else no winner |
| Ender.End | src/commands/bet_admin_ender.rs:17-70 | wrong target, no round or a timed-out modal is refused as "not a current bet"; an invalid winner or a taken `ender` is refused as "invalid or ended"; success empties `ender`, sends the winner and leaves `stopper`, teams and balances alone; refusals change nothing |
| Ender.SecondEndRejected | src/commands/bet_admin_ender.rs:55-64 | after a successful end every further end is refused and the sent winner stays |
| Ender.EndWithoutStop | src/commands/bet_admin_ender.rs:55-58 | a fresh round can be ended with no prior stop, and its stop sender stays in place |
| Ender.EndKeepsInv | src/commands/bet_admin_ender.rs:55-61 | an end keeps the reachable-state invariant, and the part of it the source's handler keeps |
| Bet.Open | src/commands/bet.rs:302-347 | opening while a round is registered is refused with no change; otherwise exactly a fresh round is registered and balances are untouched |
| Bet.Press | src/commands/bet.rs:146-176 | while the loop accepts presses, a user with a bet on either team is refused with no change, and a user with none gets exactly one new prompt, nothing else changing; presses after the loop ends are ignored |
| Bet.Timeout | src/commands/bet.rs:178-189 | an unanswered amount prompt is dropped; the other prompts, the teams, the signals and the balances are unchanged |
| Bet.FinaliseAsWritten | src/commands/bet.rs:98-144 | the handler as written: with no live prompt nothing happens; the prompt is consumed; a failed parse changes neither teams nor balances; a parsed amount always goes to `db_setbet`, a refused debit records no bet, and a successful one inserts `user ↦ amount` on the pressed team, replacing an earlier bet there, with no duplicate check |
| Bet.Finalise | src/commands/bet.rs:98-144 | corrected handler: a parsed amount from a user with a bet is refused, otherwise it is placed iff the balance covers it; a bad amount changes neither teams nor balances; a refused debit records no bet and only initialises the user; a placed bet debits exactly the amount and stores `user ↦ amount` on the pressed team only, never over an existing bet |
| Bet.StopFired | src/commands/bet.rs:363-365 | the stop branch moves the supervisor to waiting for the end value, and changes nothing else |
| Bet.EndFired | src/commands/bet.rs:366-399 | the end branch fixes the sent winner and aborts every in-flight prompt |
| Bet.EndReceived | src/commands/bet.rs:382-390 | after a stop, a sent winner is taken, a closed channel counts as Blue, an empty one keeps waiting |
| Bet.Settle | src/commands/bet.rs:401-405 | settlement runs only with a known winner and no prompt in flight; it pays `PaidOut` and deregisters the round |
| Bet.CoinsCommand | src/commands/profile.rs:25-40 | `/coins` replies with the initialised balance and leaves the round alone |
| Bet.Commit | src/commands/bet.rs:109-120 | `db_setbet` then the insert: the bet is recorded iff the debit went through, on the prompt's team only, and nothing but the teams and balances changes |
| Bet.Step | src/commands/bet.rs:363-367 | only `/bet` registers a round and only settlement deregisters it; only a placed bet changes the teams; only a bet, a balance query or settlement touches the coin table |
| Bet.StepKeepsInv | src/commands/bet.rs:361-405 | with the corrected handler every event keeps the invariant: no negative balance, one team per user, bettors have rows, senders present iff their channel is empty |
| Bet.StepKeepsBaseInv | src/commands/bet.rs:98-144 | with either handler, the source's included, every event keeps balances non-negative, bettors with rows and the senders in step with the phase |
| Bet.SettledWinnerWasSent | src/commands/bet.rs:366-403 | the winner settlement pays is the value the end command sent |
| Bet.BetsAreNeverOverwritten | src/commands/bet.rs:120 | while its round lives, a recorded bet never changes |
| Traces.RunKeepsInv | src/commands/bet.rs:302-405 | with the corrected handler, the invariant holds after any run of events |
| Traces.RunKeepsBaseInv | src/commands/bet.rs:302-405 | with either handler, the part of the invariant not about one team per user holds after any run |
| Traces.AsWrittenRunBreaksInv | src/commands/bet.rs:103-120 | with the source's handler, five events from start-up reach a world where one user holds a bet on each team |
| Traces.AtMostOncePerRound | src/commands/bet.rs:342-347 | with either handler, along any run, stop, end and settlement each take effect at most once per round opened (plus once for a round already registered) |
| Traces.FromStartUp | src/commands/bet.rs:361-405 | from start-up, no effect among stop, end and settlement happens more often than rounds are opened |
| Traces.TwoPromptsReachable | src/commands/bet.rs:363-378 | one user can hold two amount prompts at once |
| Traces.DoubleSubmitAsWrittenLosesStake | src/commands/bet.rs:103-120 | as written, two prompts of one user on one team take 200 coins but record a 100-coin bet |
| Traces.BothTeamsAsWritten | src/commands/bet.rs:147-157 | as written, two prompts of one user on both teams leave a bet on each team |
| Traces.DoubleSubmitCorrected | src/commands/bet.rs:103-120 | with the repeated check, the second submission is refused and only 100 coins are taken |
| Snipe.SetEntry | src/commands/snipe.rs:30-32 | setting an entry replaces whatever it held |
| Snipe.GetEntry | src/commands/snipe.rs:34-40 | an entry is returned iff it holds data at most 30 seconds old |
| Snipe.GetAfterSet | src/commands/snipe.rs:30-40 | what was just set reads back for exactly 30 seconds after its timestamp |
| Snipe.Find | src/commands/snipe.rs:66-68 | the result is the first cached message with the id, or none has it |
| Snipe.RecvMsg | src/commands/snipe.rs:53-61 | the message goes to the front; the back is dropped only when more than 50 are held; the rest keep their order; other channels and entries are unchanged; the channel invariant and the 51 bound are kept |
| Snipe.RecvMsgUpdate | src/commands/snipe.rs:63-84 | no content or an uncached id changes nothing; otherwise the channel's entry becomes `Edit(old, new)` at `now`, no other channel gains or changes an entry, and only that message's content changes |
| Snipe.RecvMsgDelete | src/commands/snipe.rs:86-104 | the cache never changes; the entry becomes `Delete(content)` only when the id is cached in that channel, and no other channel gains or changes an entry |
| Snipe.SnipeCommand | src/commands/snipe.rs:111-151 | "No message to snipe!" exactly when the channel has no entry or its entry is older than 30 seconds |
| Snipe.StaleStaysStale | src/commands/snipe.rs:34-40 | an entry too old to show stays too old |
| Snipe.DeletedMessageIsSniped | src/commands/snipe.rs:86-103 | a received then deleted message is shown for 30 seconds and not after |
| Snipe.EditedThenDeletedMessageIsSniped | src/commands/snipe.rs:63-103 | after an edit the snipe shows old and new text; a later deletion shows the edited text |
| Snipe.CacheStaysBounded | src/commands/snipe.rs:53-104 | any sequence of cache events keeps every deque at most 51 long and each message under its own channel |
| Snipe.FromEmptyCache | src/commands/snipe.rs:53-61 | starting from the empty cache, no deque ever exceeds 51 |

## Findings

| source | as written | input that shows it | evidently intended | confidence | as-written member | corrected member |
|---|---|---|---|---|---|---|
| src/commands/bet.rs:103-120 | `prompt_bet` checks for an existing bet before the 60-second modal wait. `finalise_bet` then debits and inserts without checking again, and the insert replaces any bet already on that team. | A user presses "Bet" on two clients before submitting, then submits 100 on both. 200 coins are debited, but the recorded bet is 100. With one press per team, the user holds a bet on both teams. | One bet per user per round ("You've already set a bet!"), and every debit backed by a recorded bet. | medium; not executed (needs two concurrent modals for one user) | Bet.FinaliseAsWritten, Traces.DoubleSubmitAsWrittenLosesStake, Traces.BothTeamsAsWritten, Traces.AsWrittenRunBreaksInv | Bet.Finalise, Traces.DoubleSubmitCorrected, Bet.StepKeepsInv, Traces.RunKeepsInv, Bet.BetsAreNeverOverwritten |

`Step` takes the handler as a parameter. `Finalise`, the corrected handler, repeats the
duplicate check under the write lock, before the debit. The invariant and
at-most-once lemmas are proved for both handlers. The exceptions are `OneTeamPerUser`
(part of `Inv`) and `BetsAreNeverOverwritten`, which hold only for the corrected one.

## Left out

- Discord transport is left out: interaction responses, modals, embeds, buttons,
  message edits and the win/loss direct messages of `db_payout` (`send_user`,
  `build_embed`, `build_components`). The replies become the `Reply` values; a modal
  answer becomes an event parameter.
- tokio is left out: `spawn`, `abort`, `select!` fairness, lock acquisition and the
  60-second and 300-second collector timeouts. Events are applied one at a time, in
  any order. A timeout becomes an event (`PromptTimeout`, or `None` as the winner
  modal). An abort that lands inside `db_setbet`'s SQL await is not modelled.
- `update_matches` polls the osu! API, so it is left out. It would be one more source
  of the stop signal.
- The `bias` option (`bet.rs:312-315`) is left out: it is read but forced to 0 in
  `calc_payout`.
- The stop-time `UPDATE bets` of the stop command is left out.
- Errors from SQL or Discord calls (`?`) are left out; every call is taken to succeed.
  The main consequence: if any direct message in `db_payout` fails (`bet.rs:276-278`,
  for instance a bettor who has closed their DMs), `run` returns before
  `bet.rs:405`. The round then stays registered and every later `/bet` is refused.
  `Bet.Settle` deregisters the round unconditionally, so it rests on this assumption.
- The source briefly registers a round with no senders and message id 0, before the
  message is posted. Opening is taken as atomic.
- Settlement.Winnings: uses exact `real` multiplication and `Floor`, not `f64` rounding
  and the saturating `as i64` cast. The program can credit one coin less than the
  model whenever `bet × (own + other) / own` is an integer. For example, with 3 bets
  on the winning team and 4 on the other, a 3-coin stake gets
  `(3.0 * (1.0 + 4.0/3.0)) as i64` = 6 at `bet.rs:244`, where the model pays 7.
- Ledger.Credit: does not model 64-bit overflow of the `coins` column. Balances are
  unbounded integers.
- AmountText.ParseU32: works on `char`s, not UTF-8 bytes; only ASCII digits and `+` matter.
- Snipe: the author line (`name#discriminator`, avatar URL or the default avatar) is
  taken as given in `Author`. The footer's "N seconds ago" text is left out.
- `main.rs`, `macros.rs`, `buttontest.rs` and `leaderboards.rs` are not part of this
  model: bootstrap, command dispatch, a UI demo and SQL-ordered reporting.
