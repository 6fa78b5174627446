# Raffle ticket contract, modelled in Dafny

This project models `RaffleTkt`, an ink! smart contract that runs a raffle.
Each account may buy one ticket with a bet between 0.01 and 0.1 unit,
inclusive. Once the draw timestamp has been reached, any registered player may call
for a draw. A draw picks the player at index `random mod pool length`, removes
that player from the pool by swap-remove and appends it to the winners. When
the second winner is drawn, the whole balance is transferred to a fixed
beneficiary. The owner (the account that deployed the contract) can remove the
contract once the game is closed.

Files:

- `collections.dfy` (module `Collections`): the storage vector's `swap_remove`
  as a function on sequences, sums of amounts, and distinctness. Distinctness
  is stated two ways, on multisets and on positions, and the two are proved
  equivalent.
- `raffle.dfy` (module `Raffle`): the error enum, the outcome of a call, the
  big-endian decoder `as_u32_be` and its inverse, and the class `RaffleTkt`.
  The class has the contract's storage fields, its messages as methods, and
  the invariant `Valid()`.
- `scenarios.dfy` (module `RaffleScenarios`): whole games, proved only from the
  method contracts. These are the five-player game of the contract's test
  module and the places where the code departs from the intended design.

## How the model is built

- Every value the contract gets from its host is a parameter: the caller, the
  attached value, the block timestamp (`now`), the 32-byte hash returned by
  the randomness call, and whether the transfer to the beneficiary succeeds
  (`transferOk`).
- `Outcome` is `Ok`, `Err(e)` or `Trap`. `Trap` means the call panicked and
  the host reverted it, so the state is unchanged. For a returned `Err` the
  model assumes a host dispatch that writes the storage back whatever the
  message returns, so the changes made before the error stay. The contract's
  source does not settle this; it depends on the host framework and its
  version.
- `Valid()` is the object invariant, and every method keeps it:
  - no account appears twice across `playerPool` and `winnersPool`;
  - the accounts with a status are exactly the accounts in either pool, and
    every status is `true`;
  - a ghost ledger of accepted bets (`stakes`) and transfers to the beneficiary
    (`payouts`) satisfies `totalBalance + Sum(payouts) == Sum(stakes)`;
  - every bet was within the bounds;
  - there are as many accepted bets as accounts in either pool;
  - there are at most two winners;
  - a payout has happened only if there are two winners.
- Removing the contract (`terminate_contract`) sets the field `terminated`.
  `Play`, `Draw` and `Terminate` require `!terminated`, because the host
  delivers no call to a removed contract.

## Where the code departs from the intended design

The model follows the code in each of these cases:

- The draw deadline is recomputed on every entry that finds at least
  `min_num_players` players. It is not set only the first time the threshold
  is reached.
- `raffle_draw_time_stamp` starts at 0, so draws are open before the minimum
  number of players has entered. `RaffleScenarios.DrawBeforeThreshold` closes
  a raffle for three players with two.
- A drawn player keeps its status. Winners can therefore call for draws but can
  never enter again.
- With an empty pool, `% self.player_pool.len()` divides by zero. This is
  reachable: a single entrant who has been drawn can call for the next draw
  (`RaffleScenarios.SingleEntrantTraps`). Because the index is always below
  the pool length, the `PlayerInvalidIndex` branch is dead.
- If the transfer fails on the closing draw, the draw returns `TransferFailed`
  but keeps the second winner (under the dispatch assumed above). The settlement function is private, and every
  later draw returns `RaffleClosed`, so the balance can never be settled.
  Entries are still accepted after closure, and their bets join that balance
  (`RaffleScenarios.FailedSettlement`).
- The maximum number of winners is the literal 2.

## Model

| member | source | states |
|---|---|---|
| `Raffle.RaffleTkt.constructor` | raffletkt/lib.rs:118-137 | empty pools and status map, balance 0, draw timestamp 0 (so a draw is open at every time), configuration as given, and the caller as owner; the invariant holds |
| `Raffle.RaffleTkt.Play` | raffletkt/lib.rs:139-200 | the outcome is `UserHasAlreadyPlayed` for a caller with a status, otherwise `IncorrectBet` for a value outside [BET_VALUE_MIN, BET_VALUE_MAX], otherwise `Ok`; a refusal changes nothing; an accepted entry appends the caller to the pool, marks its status, sets `numPlayers` to the pool length, adds exactly the value to the balance, leaves the winners alone and recomputes the draw timestamp as `now + lock` whenever the pool has reached the minimum |
| `Raffle.InBetRange` | raffletkt/lib.rs:164-167 | a bet is accepted exactly when it is neither below BET_VALUE_MIN nor above BET_VALUE_MAX, so both bounds are inclusive; an accepted bet is positive |
| `Raffle.RaffleTkt.IsGameClosed` | raffletkt/lib.rs:296-300 | the game is closed exactly when there are two winners |
| `Raffle.RaffleTkt.ClosedHasTwoWinners` | raffletkt/lib.rs:296-300 | in a valid closed game the two winners are different accounts, and both have a status |
| `Raffle.RaffleTkt.IsDrawOpen` | raffletkt/lib.rs:289-294 | a draw is open exactly when `now` is at or after the draw timestamp, so while the timestamp is 0 (from construction on) it is open at every time |
| `Raffle.RaffleTkt.EntryCheck` | raffletkt/lib.rs:157-167 | an entry is refused with `UserHasAlreadyPlayed` exactly when the caller has a status, with `IncorrectBet` exactly when it has none and the bet is out of range, and otherwise passes; it never traps |
| `Raffle.RaffleTkt.DrawCheck` | raffletkt/lib.rs:207-229 | a draw is refused with `RaffleClosed` exactly when the game is closed, else with `RaffleNotDrawable` exactly when the draw is not open, else with `InvalidPlayer` exactly when the caller has no status, else traps exactly when the pool is empty, else passes; in a valid state only a caller who is already a winner can reach the trap |
| `Raffle.RaffleTkt.AddPlayer` | raffletkt/lib.rs:169-174 | the recording step of an entry: pool, status, player count, balance and bet ledger as above, and the invariant is kept |
| `Raffle.RaffleTkt.Draw` | raffletkt/lib.rs:202-262 | guards in order: closed (two winners) gives `RaffleClosed`, `now` before the draw timestamp gives `RaffleNotDrawable`, a caller without status gives `InvalidPlayer`, an empty pool traps; each of these changes nothing and pays nothing; otherwise the player at `as_u32_be(hash) mod |pool|` is appended to the winners and swap-removed from the pool, so it is no longer in the pool and was not a winner before; status, timestamp and count stay, and after the second winner the balance is settled (`Ok` with the whole balance paid and balance 0, or `TransferFailed` with balance and winner kept) |
| `Raffle.RaffleTkt.SwapRemoveWinner` | raffletkt/lib.rs:236-244 | the winner is the old `pool[index]`, appended to the winners; the pool becomes its swap-remove at `index`; the winner is no longer in the pool and was not among the earlier winners; status and balance are unchanged; the invariant is kept |
| `Raffle.RaffleTkt.TransferFundToBeneficiary` | raffletkt/lib.rs:338-358 | with two winners and a positive balance: on success the whole balance is paid and the balance becomes 0, on failure `TransferFailed` with nothing changed; otherwise `Ok` with no transfer and nothing changed, so a call after a successful settlement is a no-op |
| `Raffle.RaffleTkt.Terminate` | raffletkt/lib.rs:317-336 | a caller other than the owner gets `InvalidOwner`; the owner gets `Ok`, and the contract is removed exactly when the game is closed; no storage field changes |
| `Raffle.RaffleTkt.GetWinnerIds` | raffletkt/lib.rs:264-274 | the copy built by the loop is the winners pool, in draw order |
| `Raffle.RaffleTkt.GetPlayerIds` | raffletkt/lib.rs:276-286 | the copy built by the loop is the player pool, in pool order |
| `Raffle.RaffleTkt.NoAccountTwice` | raffletkt/lib.rs:157-172 | in every valid state no account occurs twice in the player pool followed by the winners |
| `Raffle.RaffleTkt.BalanceBounded` | raffletkt/lib.rs:164-174 | the balance is at most BET_VALUE_MAX times the number of accounts in either pool |
| `Raffle.EntryConsistent` | raffletkt/lib.rs:157-172 | admitting an account without status keeps the pools free of repeats and the status keys equal to the accounts of both pools |
| `Raffle.DrawConsistent` | raffletkt/lib.rs:236-240 | moving `pool[i]` to the winners by swap-remove preserves the multiset of both pools together and keeps them consistent with the status map |
| `Raffle.DrawnLeavesPool` | raffletkt/lib.rs:236-240 | with consistent bookkeeping the player at index `i` is in neither the swap-removed pool nor the winners, so after the move it is a winner exactly once |
| `Raffle.EntryConserved` | raffletkt/lib.rs:165-174 | adding a bet within the bounds to the balance and the ledger keeps held plus paid equal to the sum of bets |
| `Raffle.PayoutConserved` | raffletkt/lib.rs:347-354 | paying out the whole balance keeps held plus paid equal to the sum of bets, with nothing held |
| `Raffle.AsU32Be` | raffletkt/lib.rs:366-371 | the big-endian value of the first four bytes is below 2^32 |
| `Raffle.U32Be` | raffletkt/lib.rs:366-371 | the big-endian encoding of a 32-bit number has four bytes (the inverse of `as_u32_be`) |
| `Raffle.DecodeEncode` | raffletkt/lib.rs:366-371 | decoding the encoding of a 32-bit number gives the number |
| `Raffle.EncodeDecode` | raffletkt/lib.rs:366-371 | encoding the decoded value gives back exactly the first four bytes, so decoding reads those and no others |
| `Collections.SwapRemove` | raffletkt/lib.rs:238 | the result is one shorter; slot `i` holds the old last element and every other slot is unchanged |
| `Collections.SwapRemoveMultiset` | raffletkt/lib.rs:238 | swap-remove loses exactly the removed element |
| `Collections.SumAppend` | raffletkt/lib.rs:174 | appending an amount adds exactly that amount to the sum |
| `Collections.SumBounded` | raffletkt/lib.rs:19-21 | a sum of amounts each at most `hi` is at most the count times `hi` |
| `Collections.DistinctIffNoRepeats` | raffletkt/lib.rs:157-162 | "every element has multiplicity at most one" and "no two positions hold the same element" are equivalent |
| `Collections.DistinctAppend` | raffletkt/lib.rs:169-170 | appending an element not yet present keeps a sequence distinct |
| `RaffleScenarios.FiveEntries` | raffletkt/lib.rs:412-437 | the test game's setup: a raffle for at least four players with a lock of 4000 holds the five distinct entrants in order, a balance of five bets, no payout, and the deadline set by the fifth entry |
| `RaffleScenarios.ClosingTransferFails` | raffletkt/lib.rs:236-259 | two entrants, two draws, and a failing transfer on the second: the draw returns `TransferFailed`, the game is closed with both winners kept, and the whole balance of two bets stays with no payout |
| `RaffleScenarios.EnterAll` | raffletkt/lib.rs:423-437 | entering distinct players one after the other fills the pool in order, charges each bet, gives each a status, and leaves the deadline set by the last entry |
| `RaffleScenarios.FivePlayerGame` | raffletkt/lib.rs:407-505 | the test game, built on `FiveEntries`: two draws close the game and pay all five bets, the repeated settlement the test calls is `Ok` and transfers nothing, and a further draw gets `RaffleClosed`; the test enters all players at one time, while here the entries come one time unit apart, so the refused draw at the deadline the fourth entry set is an addition of the model |
| `RaffleScenarios.DrawBeforeThreshold` | raffletkt/lib.rs:288-294 | with the timestamp still 0, two players close a raffle that asks for three |
| `RaffleScenarios.SingleEntrantTraps` | raffletkt/lib.rs:229 | a single entrant, once drawn, can call for a draw on the empty pool, and that draw traps |
| `RaffleScenarios.FailedSettlement` | raffletkt/lib.rs:255-259 | built on `ClosingTransferFails`: after a failed closing transfer, draws get `RaffleClosed`, a late entry is accepted and its bet joins the stranded balance, a stranger cannot terminate, the owner can |
| `RaffleScenarios.TerminateBeforeClosure` | raffletkt/lib.rs:323-335 | the owner's call before closure returns `Ok` and removes nothing |

The contracts of `Play` and `Draw` are written in terms of `EntryCheck` and
`DrawCheck`, which list the guards in the code's order.

Once the game is closed, it stays closed:

- a draw on a closed game changes nothing;
- `Play` leaves the winners unchanged;
- `Terminate` only sets `terminated`.

## Left out

- A host that reverts a message returning `Err` is not modelled. On such a
  host the closing draw with a failed transfer would leave the state
  unchanged, the second winner would not be kept, and a later draw could
  retry the settlement, so the stranded balance of `FailedSettlement` would
  not arise.

- Host calls (`caller`, `transferred_balance`, `block_timestamp`, `random`,
  `transfer`, `terminate_contract`) are parameters or outputs, as described
  above. The fixed seed of `get_random` and the quality of the host's
  randomness are not modelled: the 32-byte hash is an input.
- Events (`emit_event`) and the `cfg!(test)` debug printing are only output,
  so they are not modelled.
- The storage collections (`StorageVec`, `StorageHashMap`) are modelled as a
  `seq` and a `map`. Their lazy loading is not modelled.
- Machine widths are not modelled. `total_balance` (u128), the timestamp sum
  `block_timestamp + duration` (u64), and `num_players` and `min_num_players`
  (u32) are unbounded naturals, so overflow is not modelled.
  `RaffleTkt.BalanceBounded` bounds the balance by the number of players.
- `terminate_contract` also sends the contract's remaining on-chain balance to
  the owner, and it never returns. The model records only the removal, and it
  returns `Ok` to the owner.
- What happens to the value attached to a refused entry is up to the host, so
  it is not modelled.
- `raffle_get_fund_beneficiary_id` and `raffle_getdonation_balance` only
  return a field. The model reads the fields `fundBeneficiary` and
  `totalBalance` directly.
- The test module's loop that retries draws until the game closes depends on
  the host's test clock and randomness. `RaffleScenarios.FivePlayerGame` plays
  the same game with explicit times and arbitrary hashes.
