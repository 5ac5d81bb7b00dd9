# Sefi-Bet pot-betting contract: a Dafny model

This project models the betting contract of Sefi-Bet, a CosmWasm contract.
The contract runs three betting pools ("tiers"):

- **infinite**: no ceiling, refuses a bet of 0;
- **whale**: ceiling 500;
- **shrimp**: ceiling 50.

The contract keeps one stored record. It holds the administrator ("fee")
address and, per tier, the list of bets, the pot total and a start flag. The
start flag is true while the tier accepts bets.

The handlers are modelled in the source's order of checks:

- **Instantiate** builds the zeroed record with every start flag true.
- **Contribution** (`add_bet_user_*`) takes the amount and denomination of the
  *last* attached coin. It checks the start flag, then the tier's amount rule.
  On success it appends one bet with order `length + 1`, adds the amount to
  the pot, and asks for one transfer to the contract.
- **Toggle** (`toggle_game_*`) lets only the fee address negate a tier's start
  flag.
- **Settlement** (`end_game_*`) checks, in order, the sender, that the flag is
  false, and that the pot total is not 0. It then draws `d` in [0, 10000) from
  one step of the Numerical Recipes LCG. It walks the bet list keeping
  cumulative shares `amount * 100 * 100 / pot`; the first bet with
  `previous < d < cumulative` wins, and otherwise the winner is `""`. It pays
  a fee of `pot * 4 / 100` to the fee address and the rest to the winner, and
  resets the pool.

The record is the datatype `BetState.State`, threaded through the handlers.
The source's nine per-tier fields are grouped as one `Pool` per tier. A
handler either returns an error together with the record unchanged (the
source returns before `CONFIG.save`), or returns the new record and the
transfers it asks for. Transfers are abstract `(recipient, amount, denom)`
records. The generator `Lcg` is a class, because `next` updates its state.

As written, all three settlement handlers divide by and pay out the
*infinite* tier's pot total, and reset the infinite tier. `Contract.EndGame`
models this for every tier: `Contract.SettleRound` is run with the pot, the
payout and the reset taken from the infinite tier. `Contract.EndGameIntended`
settles each tier against its own pot, as the infinite path does. It is proved
isolated for every tier; `EndGame` is isolated only for the infinite tier.

The model follows the code as written, including where it looks unintended:

- whale and shrimp accept a bet of 0, including a message with no coins
  (amount 0, empty denomination);
- bet orders start at 1;
- settlement negates the start flag rather than setting it;
- whale and shrimp settlement use the infinite tier's pot.

If the divisor is zero while the list is not empty, the share division
panics. Only the whale and shrimp paths can reach this, when the infinite
pot is 0. A panic aborts the transaction, so it is modelled as the error
`DivisionByZero` with the record unchanged.

## Model

| member | source | states |
|---|---|---|
| `Contract.Instantiate` | src/contract.rs:25-53 | the fee address is the given one; every tier has an empty list, pot 0 and start flag true whatever the message's flag; the record is valid (pot equals sum of bets) |
| `Contract.LastFunds` | src/contract.rs:90-96 | the amount and denomination used are those of the last attached coin, or 0 and "" when no coin is attached |
| `Contract.AddBetUser` | src/contract.rs:75-224 | fails, with the record unchanged, exactly when a guard fails: start flag false first, then the tier's amount rule (0 for infinite, above 500 for whale, above 50 for shrimp); on success appends exactly one bet (sender, last coin's amount and denom, order = old length + 1), adds the amount to that tier's pot, asks for one transfer of it to the contract, leaves the fee address and the other two tiers untouched, and keeps the record valid |
| `Contract.ToggleGame` | src/contract.rs:226-281 | succeeds exactly when the sender is the fee address, then negates only that tier's start flag and changes nothing else; otherwise fails as unauthorized |
| `Contract.ToggleTwiceRestores` | src/contract.rs:232-237 | two toggles of the same tier by the fee address give back the original record |
| `Contract.Payout` | src/contract.rs:360-373 | a settlement emits two transfers: the fee of the paid pot to the fee address and the prize to the walk's winner, whose amounts add up to the pot total it pays out |
| `Contract.SettleRound` | src/contract.rs:317-379 | the shared settlement body: fails with the record unchanged on the first failing guard (sender, open flag, zero pot, zero divisor), else resets the paid tier and pays fee and prize of the paid tier's pot to the fee address and to the winner of the walk over the settled tier's list |
| `Contract.InfiniteResetIsolatedOnlyForInfinite` | src/contract.rs:449-451 | resetting the infinite tier after settling a closed tier leaves that tier settled in isolation (own pool empty, zero, open; others untouched) exactly when it is the infinite tier |
| `Contract.InfiniteWalkWithinScale` | src/contract.rs:345-348 | in a valid record the infinite tier's last cumulative bound is at most 10000 |
| `Contract.EndGame` | src/contract.rs:311-536 | the three settlement handlers as written: fee plus prize equal the infinite pot; the infinite tier is emptied, zeroed and its flag negated; the whale and shrimp pools are never changed; the result is settled in isolation exactly when the settled tier is the infinite one; validity is kept |
| `Contract.EndGameIntended` | src/contract.rs:311-387 | the per-tier settlement: fee plus prize equal the settled tier's own pot and the record is settled in isolation for every tier |
| `RandomDraw.LcgStep` | src/contract.rs:292-299 | one generator step lands below 2^32 |
| `RandomDraw.WrappingStepAgrees` | src/contract.rs:297 | u64 wrapping multiply and add followed by `% 2^32` equal `(1664525 * state + 1013904223) mod 2^32` |
| `RandomDraw.Lcg.constructor` | src/contract.rs:287-290 | the generator starts at the seed |
| `RandomDraw.Lcg.Next` | src/contract.rs:292-299 | the state advances by exactly one recurrence step and the new state is returned |
| `RandomDraw.Draw` | src/contract.rs:302-309 | the draw is below 10000 |
| `RandomDraw.GenerateRandomValue` | src/contract.rs:302-309 | the value is `((1664525 * seed + 1013904223) mod 2^32) mod 10000`, hence deterministic and below 10000 |
| `WinnerWalk.FirstHitFrom` | src/contract.rs:345-358 | the bet found holds the draw strictly between its two bounds and no earlier bet does; when none is found, no bet holds it |
| `WinnerWalk.PickWinner` | src/contract.rs:345-358 | the loop returns the first bet in insertion order holding the draw (or "") and the coin type of the last bet it visited ("usei" for an empty list) |
| `WinnerWalk.BoundMonotone` | src/contract.rs:347-348 | cumulative bounds never decrease |
| `WinnerWalk.HitUnique` | src/contract.rs:350-355 | at most one bet holds a given draw |
| `WinnerWalk.WinnerFoundIff` | src/contract.rs:345-358 | a winner is found if and only if the draw is below the last bound and equal to none of the bounds, so a draw of 0 or on a boundary leaves the winner "" |
| `WinnerWalk.BoundScaled` | src/contract.rs:347-348 | each cumulative bound times the pot is at most 10000 times the sum of the amounts it covers, with equality when no share was rounded down |
| `WinnerWalk.FinalBound` | src/contract.rs:345-358 | when the pot is the sum of the bets the last bound is at most 10000, and exactly 10000 when no share was rounded down |
| `WinnerWalk.Fee` | src/contract.rs:361 | the fee is the floor of 4 % of the pot: `25 * fee <= pot < 25 * fee + 25` |
| `WinnerWalk.Prize` | src/contract.rs:363 | fee plus prize equal the pot, and the prize is at least 24 times the fee |
| `BetState.SumAmountsAppend` | src/contract.rs:109-116 | appending a bet adds its amount to the sum of the list |
| `Scenarios.TestAddBetUser` | src/contract.rs:572-636 | one bet of 10 into a fresh record becomes the tier's only bet, with order 1, and makes its pot 10, for each tier |
| `Scenarios.ThreeInfiniteBets` | src/contract.rs:645-654 | bets of 100, 50 and 50 give the infinite list with orders 1 to 3 and pot 200 |
| `Scenarios.TestSeedDraw` | src/contract.rs:655 | the test seed 1231231809300 draws 9427 |
| `Scenarios.ThreeBetsWalk` | src/contract.rs:639-660 | with bounds 5000/7500/10000 and draw 9427 the winner is last_bet_user |
| `Scenarios.TestEndGameAsWritten` | src/contract.rs:639-660 | the test as written settles an open round, which fails as "game is still open" |
| `Scenarios.TestEndGameAfterToggle` | src/contract.rs:639-660 | with the round closed first, the settlement emits exactly two transfers, fee 8 to the fee address and prize 192 to last_bet_user, and reopens an empty infinite tier |
| `Scenarios.OneWhaleBetWalk` | src/contract.rs:423-433 | a single whale bet of 200 holds the draw 9427 against a divisor of 100 or 200 |
| `Scenarios.WhaleSettlementAsWritten` | src/contract.rs:389-461 | settling a closed whale tier pays the infinite pot (fee 4, prize 96) to the whale bettor, empties and closes the infinite tier, leaves the whale pool as it was, and a second whale settlement panics |
| `Scenarios.WhaleSettlementIntended` | src/contract.rs:311-387 | settled per tier, the whale pot 200 gives fee 8 and prize 192, the whale pool is reset and the infinite tier keeps its bet |

## Findings

| source | as written | input that shows it | evidently intended | confidence | as-written member | corrected member |
|---|---|---|---|---|---|---|
| src/contract.rs:423-451 | whale settlement (and shrimp at 496-526) divides by, pays out and resets `pot_total_infinte` | infinite bet 100 (open), whale bet 200 (closed), seed 1231231809300: the whale bettor receives 96 of the infinite pot, the whale pool is not reset, and a second whale settlement panics | each tier's settlement uses, pays out and resets its own pot, as the infinite path does | high; not executed | `Scenarios.WhaleSettlementAsWritten` | `Contract.EndGameIntended` |
| src/contract.rs:639-660 | `test_end_game` settles the infinite tier without toggling it closed, so `end_game_infinite` returns "Game is still open" and `unwrap` panics | the test's own bets 100/50/50 and seed 1231231809300 | toggle the tier before settling; the settlement then pays 192 to last_bet_user and 8 in fees | high; not executed | `Scenarios.TestEndGameAsWritten` | `Scenarios.TestEndGameAfterToggle` |

## Left out

- Entry-point dispatch (`execute`), response attributes and the construction of `CosmosMsg`/`BankMsg`: transfers are abstract records, and the contract address is a parameter.
- Storage: `set_contract_version`, `CONFIG.save`/`may_load`, `query_config` and `query`. The record is passed in and returned, and a failed load is a host failure that is not modelled.
- `betting_start_time`: it is always 0 and never read.
- The `println!`/`print!` debug output, and the message-schema derives and enums in src/msg.rs.
- Error messages: errors are modelled as kinds, not as the source's strings.
- Randomness quality and seed provenance: the generator is modelled as arithmetic only.
- `Contract.AddBetUser`: does not model u128 overflow of the pot total, because the build profile (panic or wrap on overflow) is not visible. Amounts are unbounded naturals, which agree with the source while every intermediate product (pot * 4, amount * 10000, the cumulative share) stays below 2^128.
- `WinnerWalk.Fee`: does not model u128 overflow of `pot * 4` (src/contract.rs:361, 435, 510), which overflows once the pot reaches 2^126; the fee is computed on unbounded naturals.
- `WinnerWalk.PickWinner`: does not model u128 overflow of `amount * 100 * 100` or of the cumulative share, for the same reason.
- The whale handler builds its transfer before the ceiling check. This has no observable effect and is not modelled.
