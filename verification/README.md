# EOSIO contracts: a verified model

This project models the contract code of the repository and proves what it keeps over whole runs. It
covers the system contract (voting, the RAM market, staking, producer pay, name auctions, the election),
the WASM heap allocator of `eosiolib`, the dice contract and the token contract.

Each component has the same build. A datatype holds the tables as values, and one function per action says
what the action does; a failed `eosio_assert` aborts the transaction, so the function yields `None` and the
state stays. Lemmas then say, in terms of the tables alone, when an action succeeds and what it changes, and
prove the invariants of every action and of every run. Beside them a class holds the same tables as fields
that are rewritten in place, loop by loop, and each method is proved to compute exactly what the function
says, and to leave everything unchanged when it aborts. The allocator has no separate functions for most
steps: its class works on header words in memory, and its invariant and contracts speak about the blocks
those words tile.

| files | what they hold |
|---|---|
| `Sums` | sums over tables |
| `Voting`, `VotingTallies`, `VotingRuns`, `VotingRegistration`, `VotingLaws`, `VotingContract` | votes, proxies, tallies |
| `VotingDrift`, `VotingTotal` | how far the tallies can be off |
| `VotingGrid`, `VotingLinear`, `VotingSteepness`, `VotingClock` | weights proportional to stake, and the factors of `stake2vote` |
| `VotingSteps`, `VotingPairs`, `VotingInstances` | runs in which changes are lost |
| `RamMath`, `RamMarket`, `RamContract` | the two-leg relay and the RAM actions |
| `Staking`, `StakingRuns`, `StakingLaws`, `StakingVotes`, `StakingContract`, `BandwidthContract` | delegation, refunds, eosio.stake, and the vote that is cast again |
| `ProducerPay`, `PayLaws`, `PayInstances`, `PayContract`, `AccountNames`, `NameAuction`, `Election`, `ElectionInstances` | pay, auctions, schedules |
| `HeapBlocks`, `HeapMemory`, `HeapManager`, `HeapRealloc`, `HeapResize`, `HeapInstances` | the allocator |
| `Dice`, `DiceRuns`, `DiceLaws`, `DiceOutcomes`, `DiceContract` | the dice game |
| `Token`, `TokenContract` | the ledger |

`dafny verify dfyconfig.toml` checks the whole project.

## Where the code falls short of what is written about it

- Vote tallies. A weight change of at most one vote is dropped although the cast weight is overwritten.
  `VotingTallies.PropagateDrift` says by how much the tallies are then off, and `VotingRuns.RunKeepsInv` that
  they are exact throughout a run if and only if nothing is lost: within each action, what is dropped is
  nothing, concerns nobody, or is made up for by the other half of the same vote. Within one week nothing is
  ever lost (`VotingClock.WeekIsExact`). From one week to the next a proxy can lose a fraction of a vote
  (`VotingInstances.DroppedChangeBreaksTallies`, with stakes for July 2018 in `VotingClock.JulySlips`). How far
  off that leaves the tallies is bounded in every run (`VotingDrift.RunIsOff`, `VotingClock.ClockRuns`,
  `VotingTotal.TotalLaw`).
- Negative weights. A vote of negative weight skips the check that the producers it lists are registered, and
  nothing else does (`VotingRegistration.ChecksRegistration`). Whether there are such weights depends on the
  factors of `stake2vote` alone: there are none if any two factors in use are more than one vote per unit of
  stake apart, and a run reaches them otherwise (`VotingSteepness.SteepnessDecides`,
  `VotingSteepness.SteepnessDecidesAborts`). The factors of the weeks from March 2006 on are that far apart, and
  those from any earlier week on are not (`VotingClock.ClockDecides`). So no clock after 2006 lets a weight go
  negative, and line 274 of voting.cpp is then unreachable whatever is dropped; the runs that get there need two
  factors at most one vote per unit apart.
- Producer pay. The funds balance in every run, but once weight changes are lost a producer's votes can exceed
  the total, and its claim is then refused (`ProducerPay.ClaimKeepsFunded`, `PayInstances.PayStopsInJuly`).
- Election. A row with negative votes, again the effect of lost changes, can keep an eligible producer out
  (`Election.PrefixIsTop`, `ElectionInstances.ScheduleIsBlockedInJuly`).
- `buyrambytes` announces an exact amount of RAM (contracts/eosio.system/delegate_bandwidth.cpp:85-87) and
  always delivers less (`RamMarket.BuyRamBytesFallsShort`).
- `changebw` paid by eosio.stake books stake that no token backs (`StakingRuns.ChangeBwBacks`,
  `StakingRuns.RunKeepsInv`).
- Dice: the README lets both secrets decide, and the first to reveal win by default. The code hashes the
  seats before the second secret is stored, so the winner is settled by the first reveal
  (`DiceOutcomes.WinnerIsFixed`); an all-zero secret in the first seat counts as no reveal
  (`DiceOutcomes.ExpiryPaysFirstRevealer`); and the stakes of a game nobody reveals for stay locked
  (`DiceOutcomes.StakesStayLocked`).
- Allocator: the room test of `malloc` and the fit test of `realloc_in_place` wrap around in 32 bits
  (`HeapManager.BumpTestIsExact`, `HeapRealloc.FitTestIsExact`), and the merge walk of a growing `realloc` is
  bounded by the end of the heap and not by its tiled part (`HeapRealloc.WalkRunsOff`). The methods state what
  happens in these cases too, and a few calls on a new heap lead there (`HeapInstances.StrayIsReached`,
  `HeapInstances.FitWrapsIsReached`).

## Model

| member | source | states |
|---|---|---|
| `Voting.Propagate` | contracts/eosio.system/voting.cpp:255-286 | Weight propagation terminates because every proxy edge lowers `rank`; it neither adds nor removes voter or producer rows |
| `Voting.ShapedStore` | contracts/eosio.system/voting.cpp:183-186 | A new proxy edge points at a registered proxy, which follows nobody, so the table keeps its shape and no cycle appears |
| `Voting.UpdateVotes` | contracts/eosio.system/voting.cpp:131-225 | A stored ballot leaves well-formed tables: sorted lists of at most 30, proxies that exist, edges that lower `rank` |
| `VotingTallies.DriftCancels` | contracts/eosio.system/voting.cpp:203-285 | Tallies with a drift are right if and only if the drift cancels out |
| `VotingTallies.DeltasTally` | contracts/eosio.system/voting.cpp:203-218 | Producer deltas, floored at zero and summed unfloored into the total, leave right tallies if and only if earlier losses cancel out, and then the floor is never met |
| `VotingTallies.PropagateFrame` | contracts/eosio.system/voting.cpp:255-286 | Propagation leaves every row alone that its chain cannot reach, in particular the voter being updated |
| `VotingTallies.PropagateRefreshes` | contracts/eosio.system/voting.cpp:257-285 | After propagation the row it starts at casts exactly its current weight |
| `VotingTallies.QuietDrift` | contracts/eosio.system/voting.cpp:262-285 | A cast weight overwritten without telling anyone makes the tallies miss exactly that change |
| `VotingTallies.PushDrift` | contracts/eosio.system/voting.cpp:264-270 | Moving the proxy total by the change of one follower loses nothing, that follower counted at its new weight |
| `VotingTallies.SpreadDrift` | contracts/eosio.system/voting.cpp:271-279 | Crediting each approved producer with the change loses nothing, the grand total included |
| `VotingTallies.PropagateDrift` | contracts/eosio.system/voting.cpp:255-286 | From tallies with any drift, propagation leads to tallies with that drift plus exactly the change it dropped; weights stay nonnegative unless an earlier drift gets in the way |
| `VotingTallies.WithdrawTally` | contracts/eosio.system/voting.cpp:166-173 | Taking a ballot back from its old proxy leaves tallies that count the voter with no proxy, but for what was dropped |
| `VotingTallies.EntrustTally` | contracts/eosio.system/voting.cpp:183-192 | Giving a ballot to its new proxy leaves tallies that count it there, but for what the two steps dropped |
| `VotingTallies.CountTally` | contracts/eosio.system/voting.cpp:194-218 | The finished count is right if and only if what was dropped on the way cancels out, and then the clamp at line 209 never fires |
| `VotingRuns.RecountTally` | contracts/eosio.system/voting.cpp:160-218 | A whole recount never aborts on registered ballots and yields the tallies of the new ballot if and only if nothing is lost |
| `VotingRuns.UpdateVotesKeepsInv` | contracts/eosio.system/voting.cpp:131-225 | A vote succeeds if and only if its own checks pass, leaves every tally equal to its definition if and only if no weight change is lost, and then does not meet the clamp at line 209 |
| `VotingRuns.PropagateBalanced` | contracts/eosio.system/voting.cpp:255-286 | On balanced tables propagation never aborts, and keeps every tally equal to its definition if and only if it drops nothing |
| `VotingRuns.SetFlagKeepsInv` | contracts/eosio.system/voting.cpp:236-253 | Flipping the proxy flag never aborts in propagation and keeps the tallies exact if and only if no change is dropped |
| `VotingRuns.AddVoterKeepsInv` | contracts/eosio.system/voting.cpp:247-252 | A new voter row starts with nobody following it, so all tallies stay exact |
| `VotingRuns.RegProducerKeepsInv` | contracts/eosio.system/voting.cpp:37-61 | A newly registered producer has no votes yet, a re-registered one keeps them; all tallies stay exact |
| `VotingRuns.RestakeKeepsInv` | contracts/eosio.system/delegate_bandwidth.cpp:358-380 | A stake change aborts only when the stake would become negative: the stored ballot can always be re-cast; the tallies stay exact if and only if nothing is lost |
| `VotingRuns.ActionKeepsInv` | contracts/eosio.system/voting.cpp:126-286 | Every voting action keeps every tally equal to its definition if and only if it loses no weight change, and then does not meet the clamp |
| `VotingRuns.RunKeepsInv` | contracts/eosio.system/voting.cpp:126-286 | Producer votes, entrusted weights and the grand total equal the sums that define them in every state along a run if and only if the run loses no weight change; the clamp at line 209 then never fires in it |
| `VotingRuns.ProxyGraphIsAcyclic` | contracts/eosio.system/voting.cpp:133-146 | In every run, with or without dropped changes, no proxy chain comes back to where it started |
| `VotingRuns.PropagateNeverAborts` | contracts/eosio.system/voting.cpp:255-286 | The data corruption checks at lines 256, 265 and 274 never fail when all stored ballots are registered, whatever the weights |
| `VotingRuns.VoteAbortsOnlyOnItsChecks` | contracts/eosio.system/voting.cpp:131-225 | A vote aborts exactly on its own checks: those at lines 169, 256, 265 and 274 are unreachable |
| `VotingLaws.BallotIsAccepted` | contracts/eosio.system/voting.cpp:131-214 | A ballot for producers is accepted if and only if it lists at most thirty in strictly rising order, its voter has a row, and every one is an active producer, or the weight is negative |
| `VotingLaws.ProxyIsAccepted` | contracts/eosio.system/voting.cpp:131-192 | A ballot for a proxy is accepted if and only if it lists nobody, its voter has a row and is no proxy, and the proxy is another account registered as one |
| `VotingLaws.BallotIsStored` | contracts/eosio.system/voting.cpp:144-225 | An accepted ballot is the one stored, at the current weight; stake is activated with the first ballot; no other row changes its ballot, stake or flag |
| `VotingLaws.BallotIsCounted` | contracts/eosio.system/voting.cpp:164-218 | Without proxies before or after: the votes of every producer after a ballot, floor included |
| `VotingLaws.FlagIsSet` | contracts/eosio.system/voting.cpp:236-253 | `regproxy` succeeds if and only if it changes the flag and makes no follower a proxy, and sets that flag only |
| `VotingLaws.StakeIsMoved` | contracts/eosio.system/delegate_bandwidth.cpp:358-380 | A stake change succeeds if and only if the stake stays nonnegative, moves that stake only, and whoever has a ballot casts it again at the new weight |
| `VotingLaws.RegistrationActivates` | contracts/eosio.system/voting.cpp:37-61 | A registered producer is active, new with no votes or back with the votes it has, and nothing else changes |
| `VotingLaws.DeactivationIsAll` | contracts/eosio.system/voting.cpp:63-71 | Exactly a producer with a row can be deactivated, and only that changes |
| `VotingRegistration.ChecksRegistration` | contracts/eosio.system/voting.cpp:193-217 | A voter can get only registered producers stored, whatever it lists, if and only if its weight is not negative |
| `VotingRegistration.ActionKeepsRegistered` | contracts/eosio.system/voting.cpp:126-286 | All listed producers stay registered, whatever the weights, under every action except a vote of negative weight that lists an unregistered one |
| `VotingRegistration.RunKeepsRegistered` | contracts/eosio.system/voting.cpp:126-286 | Along every run, for any weights and whatever is lost, all listed producers are registered exactly while no vote of negative weight stores an unregistered one; so long the check at line 274 is unreachable |
| `VotingDrift.RecountLaw` | contracts/eosio.system/voting.cpp:160-225 | On any tables and for any weights, the drift after a vote without the clamp is the old one, what both propagations dropped, an old ballot not withdrawn and a new one not counted |
| `VotingDrift.FloorIsOff` | contracts/eosio.system/voting.cpp:208-211 | The clamp puts no tally further off, unless its definition is itself below zero |
| `VotingDrift.ActionIsOff` | contracts/eosio.system/voting.cpp:126-286 | Each action puts votes and entrusted weights off by at most one vote per dropped change, plus the weights below zero it leaves standing, does not count or hides |
| `VotingDrift.RunIsOff` | contracts/eosio.system/voting.cpp:126-286 | In every run, from any tables and with any weights, no votes and no entrusted weight are off their definition by more than they were plus what the actions missed |
| `VotingDrift.DriftIsBounded` | contracts/eosio.system/voting.cpp:126-286 | In every run without negative weights, from registered ballots, no votes and no entrusted weight are off by more than they were plus the number of dropped changes |
| `VotingDrift.DriftFromEmpty` | contracts/eosio.system/voting.cpp:126-286 | From the empty tables: by no more than the number of dropped changes |
| `VotingTotal.PropagateKeepsGap` | contracts/eosio.system/voting.cpp:271-279 | Propagation moves the sum of all votes and the grand total alike |
| `VotingTotal.RecountMovesGap` | contracts/eosio.system/voting.cpp:203-218 | A vote moves the sum of all votes against the grand total by exactly what the clamp at line 209 adds, which is never negative |
| `VotingTotal.TotalLaw` | contracts/eosio.system/voting.cpp:126-286 | In every run, from any tables and with any weights, the grand total that pay is divided by falls behind the sum of all votes by exactly what the clamp hides |
| `VotingGrid.GridPropagates` | contracts/eosio.system/voting.cpp:255-286 | When all weights are multiples of one step of more than one vote, propagation drops only changes of zero and stays on that grid |
| `VotingGrid.GridRecounts` | contracts/eosio.system/voting.cpp:160-218 | On that grid a whole recount loses nothing and stays on it |
| `VotingGrid.GridRunsAreExact` | contracts/eosio.system/voting.cpp:126-286 | From the empty tables, every run with weights on such a grid keeps every tally exact and never meets the clamp, with no condition on the run |
| `VotingLinear.NoSmallChange` | contracts/eosio.system/voting.cpp:105-109 | When any two factors are more than one vote per unit of stake apart, the weight of a stake changes by more than one vote or not at all |
| `VotingLinear.DropsForProducers` | contracts/eosio.system/voting.cpp:255-286 | So the only change a propagation drops is one of a row that lists producers itself; no proxy misses any |
| `VotingLinear.RecountSteady` | contracts/eosio.system/voting.cpp:160-218 | A vote keeps what every proxy holds equal to what its followers cast, and all cast weights nonnegative, whatever it drops |
| `VotingLinear.ActionSteady` | contracts/eosio.system/voting.cpp:126-286 | So does every voting action, which also keeps every listed producer registered |
| `VotingLinear.RunKeepsSteady` | contracts/eosio.system/voting.cpp:105-286 | And so does every run with weights proportional to stake at such factors |
| `VotingLinear.LinearRunsNeverAbort` | contracts/eosio.system/voting.cpp:105-286 | In every such run from the empty tables no weight is negative, line 274 is unreachable whatever is dropped, and a vote succeeds exactly when its own checks pass |
| `VotingLinear.LinearDriftIsBounded` | contracts/eosio.system/voting.cpp:105-286 | In every such run no votes are off by more than the number of dropped changes |
| `VotingLinear.OneFactorIsExact` | contracts/eosio.system/voting.cpp:105-286 | At one factor of more than one vote per unit every run from the empty tables is exact and never meets the clamp |
| `VotingSteepness.NegativeWeightIsReached` | contracts/eosio.system/voting.cpp:166-192 | At any two factors at most one vote per unit apart a run from the empty tables leaves a proxy with a negative weight |
| `VotingSteepness.UnregisteredProducerIsStored` | contracts/eosio.system/voting.cpp:193-217 | There the proxy gets a producer stored that was never registered |
| `VotingSteepness.PropagationAborts` | contracts/eosio.system/voting.cpp:271-274 | After that a vote that passes all its checks aborts at line 274 |
| `VotingSteepness.SteepnessDecides` | contracts/eosio.system/voting.cpp:105-286 | For any set of positive factors: no run ever makes a weight negative if and only if any two factors are more than one vote per unit apart |
| `VotingSteepness.SteepnessDecidesAborts` | contracts/eosio.system/voting.cpp:131-286 | For factors of at least one: no vote that passes its checks ever aborts if and only if the same holds |
| `VotingClock.ClockIsSteep` | contracts/eosio.system/voting.cpp:105-109 | The factors two to the power of weeks/52, from week n on, are that far apart if and only if n is at least 324, in March 2006 |
| `VotingClock.ClockDecides` | contracts/eosio.system/voting.cpp:105-286 | In the runs that begin with empty tables in week n no weight goes negative, and no vote that passes its checks aborts, if and only if n is at least 324 |
| `VotingClock.ClockRuns` | contracts/eosio.system/voting.cpp:105-286 | From that week on, in every run and whatever it drops: proxies hold exactly what their followers cast, all listed producers are registered, and no votes are off by more than the number of dropped changes |
| `VotingClock.WeekIsExact` | contracts/eosio.system/voting.cpp:105-286 | Within any one week but the first every tally is exact |
| `VotingClock.JulySlips` | contracts/eosio.system/voting.cpp:105-109 | In weeks 965 and 966 stakes exist for which the changes of the instances below come to 0.2 to 1 votes, and to less than 0.1 |
| `VotingPairs.Opens` | contracts/eosio.system/voting.cpp:131-225 | In any tables: a new proxy that lists one producer and gains a follower adds the worth of both stakes to it |
| `VotingPairs.Closes` | contracts/eosio.system/voting.cpp:166-225 | Then the follower leaves, comes back, the proxy takes its stake out and the follower leaves: a change that the first leave drops stays in the votes, also below zero |
| `VotingInstances.VotedIsReached` | contracts/eosio.system/voting.cpp:37-225 | A run from the empty tables at one factor, to a proxy with one follower; all tallies are exact |
| `VotingInstances.DroppedChangeBreaksTallies` | contracts/eosio.system/voting.cpp:262-285 | As the follower leaves at the next factor the proxy drops a change, and a tally differs from its definition |
| `VotingInstances.FloorBreaksTotal` | contracts/eosio.system/voting.cpp:203-218 | Then the proxy withdraws its vote, and the clamp at line 209 leaves the total below the votes of one producer by what was dropped |
| `VotingInstances.NegativeVotesAreReached` | contracts/eosio.system/voting.cpp:131-286 | Two such pairs in a run from the empty tables leave an inactive producer with negative votes and an active one with positive votes |
| `VotingContract.SystemContract.CreditAll` | contracts/eosio.system/voting.cpp:273-279 | The loop over approved producers credits each one and the grand total, or reports one that is not registered |
| `VotingContract.SystemContract.PropagateWeightChange` | contracts/eosio.system/voting.cpp:255-286 | The recursive in-place update equals `Propagate`; the checks at 256 and 265 are proved as assertions |
| `VotingContract.SystemContract.CheckBallot` | contracts/eosio.system/voting.cpp:133-142 | The loop decides exactly whether a ballot is valid: strictly sorted, at most 30, or a proxy that is not oneself |
| `VotingContract.SystemContract.CollectDeltas` | contracts/eosio.system/voting.cpp:165-201 | The two loops build the map of per-producer changes |
| `VotingContract.SystemContract.ApplyAll` | contracts/eosio.system/voting.cpp:203-218 | Applying the map row by row, in any order, equals applying it at once; it fails exactly when a newly approved producer is missing or inactive |
| `VotingContract.SystemContract.UpdateVotes` | contracts/eosio.system/voting.cpp:131-225 | The in-place update equals the function `UpdateVotes` and leaves nothing changed when it aborts |
| `VotingContract.SystemContract.RegProxy` | contracts/eosio.system/voting.cpp:236-253 | In-place `regproxy` equals its specification, with rollback |
| `VotingContract.SystemContract.ChangeStake` | contracts/eosio.system/delegate_bandwidth.cpp:358-380 | In-place stake change and re-cast equals its specification, with rollback |
| `VotingContract.SystemContract.RegProducer` | contracts/eosio.system/voting.cpp:37-61 | In-place registration equals its specification |
| `VotingContract.SystemContract.UnregProducer` | contracts/eosio.system/voting.cpp:63-71 | In-place deactivation equals its specification; the same step serves `rmvproducer` |
| `RamMath.IssuedIsLargest` | contracts/eosio.system/exchange_state.cpp:6-14 | The relay units issued are exactly the truncated root: that many fit and no more |
| `RamMath.RedeemedIsLargest` | contracts/eosio.system/exchange_state.cpp:22-40 | What is redeemed is exactly the truncated power: that much is covered, and no more |
| `RamMath.PaysOnce` | contracts/eosio.system/exchange_state.cpp:4-46 | The two roundings of a trade determine what it pays |
| `RamMath.RelayBound` | contracts/eosio.system/exchange_state.cpp:4-46 | Both legs together pay at most the constant-product price, for every exponent |
| `RamMath.NoExactDoubling` | contracts/eosio.system/exchange_state.cpp:12 | No n-th power is twice another for n of at least two: a deposit into an empty connector cannot double the supply exactly |
| `RamMath.FitsIfSmall` | contracts/eosio.system/exchange_state.cpp:6-14 | At least the first order of the root is issued, for every exponent |
| `RamMath.RedeemedAtLeast` | contracts/eosio.system/exchange_state.cpp:22-36 | At least the first order of the power is redeemed, truncated |
| `RamMath.RelayFloor` | contracts/eosio.system/exchange_state.cpp:4-46 | Both legs together pay no less than the price with the deposit counted twice, but for one unit of each leg |
| `RamMarket.TradeLaw` | contracts/eosio.system/exchange_state.cpp:48-81 | A full trade takes two legs and no more, leaves the relay supply unchanged, moves the deposit in whole, pays exactly what the two roundings determine, and never empties the connector it pays from |
| `RamMarket.TradeFloor` | contracts/eosio.system/exchange_state.cpp:48-81 | A full trade is bounded from below: it pays no less than the price with the deposit counted twice, but for one unit of each leg |
| `RamMarket.RelayStrict` | contracts/eosio.system/exchange_state.cpp:22-46 | A trade never pays out the whole balance of a connector |
| `RamMarket.TradeKeepsProduct` | contracts/eosio.system/exchange_state.cpp:48-81 | No trade decreases base times quote |
| `RamMarket.RoundTripLoses` | contracts/eosio.system/delegate_bandwidth.cpp:131-133 | Buying RAM for t tokens and selling the bytes at once gives back at most t before fees, through all four truncations |
| `RamMarket.SolventStake` | contracts/eosio.system/delegate_bandwidth.cpp:183-184 | In a solvent state the RAM stake is nonnegative and some RAM is free |
| `RamMarket.BuyRamKeepsSolvent` | contracts/eosio.system/delegate_bandwidth.cpp:105-153 | `buyram` succeeds exactly on positive, covered amounts that buy at least a byte, and keeps the market solvent |
| `RamMarket.SellRamKeepsSolvent` | contracts/eosio.system/delegate_bandwidth.cpp:162-201 | `sellram` aborts only on mistakes of the caller: the check that should not happen never fires and eosio.ram never runs short |
| `RamMarket.SetRamKeepsSolvent` | contracts/eosio.system/eosio.system.cpp:54-74 | Raising the RAM size keeps the market solvent |
| `RamMarket.BuyRamBytesFallsShort` | contracts/eosio.system/delegate_bandwidth.cpp:85-94 | The exact amount the comment promises is never delivered: every successful call yields fewer bytes than asked for |
| `RamMarket.FeeIsHalfPercent` | contracts/eosio.system/delegate_bandwidth.cpp:110-111 | The fee is half a percent of the amount, rounded up |
| `RamMarket.BuyRamLaw` | contracts/eosio.system/delegate_bandwidth.cpp:105-153 | What a purchase pays in after the fee, the bytes that buys, and that the receiver alone gets them |
| `RamMarket.BuyRamBytesLaw` | contracts/eosio.system/delegate_bandwidth.cpp:88-94 | `buyrambytes` is a purchase for what selling the bytes would pay |
| `RamMarket.SellRamLaw` | contracts/eosio.system/delegate_bandwidth.cpp:162-201 | What a sale pays out of the vault, and that the bytes come from their owner alone |
| `RamMarket.SetRamLaw` | contracts/eosio.system/eosio.system.cpp:54-74 | `setram` succeeds if and only if the size rises, stays below a pebibyte and above what is reserved; what it rises by is for sale |
| `RamMarket.MillionBytesAsked` | contracts/eosio.system/delegate_bandwidth.cpp:88-94 | In the market as it is opened, at the exponent 2000, a call for a million bytes succeeds and delivers at least 990000 and fewer than a million |
| `RamMarket.RunKeepsSolvent` | contracts/eosio.system/delegate_bandwidth.cpp:88-201 | In every run the ledger balances, quote times base stays above its start, the relay supply is constant and the product never shrinks |
| `RamMarket.OpenedMarketStaysSolvent` | contracts/eosio.system/eosio.system.cpp:22-35 | From the opening of the market on: RAM never sells out, reserved bytes are the sum of what accounts own, and what was paid in is there |
| `RamMarket.NoFreeTokens` | contracts/eosio.system/delegate_bandwidth.cpp:105-201 | No sequence of trades by any accounts takes tokens out of the market while leaving it no more RAM than before |
| `RamContract.RamMarketContract.ConvertToExchange` | contracts/eosio.system/exchange_state.cpp:4-20 | The in-place leg equals its specification and changes nothing when refused |
| `RamContract.RamMarketContract.ConvertFromExchange` | contracts/eosio.system/exchange_state.cpp:22-46 | The in-place leg equals its specification and changes nothing when refused |
| `RamContract.RamMarketContract.Convert` | contracts/eosio.system/exchange_state.cpp:48-81 | The recursive in-place conversion equals `Convert` |
| `RamContract.RamMarketContract.BuyRam` | contracts/eosio.system/delegate_bandwidth.cpp:105-153 | In-place `buyram` equals its specification, with rollback |
| `RamContract.RamMarketContract.BuyRamBytes` | contracts/eosio.system/delegate_bandwidth.cpp:88-94 | Pricing on a copy leaves the market as it was before the purchase |
| `RamContract.RamMarketContract.SellRam` | contracts/eosio.system/delegate_bandwidth.cpp:162-201 | In-place `sellram` equals its specification, with rollback |
| `RamContract.RamMarketContract.SetRam` | contracts/eosio.system/eosio.system.cpp:54-74 | In-place `setram` equals its specification |
| `RamContract.RamMarketContract.constructor` | contracts/eosio.system/eosio.system.cpp:22-35 | The market is opened with the documented balances |
| `HeapBlocks.LivePayloadsDisjoint` | contracts/eosiolib/eosiolib.cpp:279-291 | Live payloads of a tiled heap never overlap |
| `HeapBlocks.FromFreedLive` | contracts/eosiolib/eosiolib.cpp:293-316 | The search keeps the extent and every live payload, and returns a new payload of exactly the requested size inside the heap |
| `HeapBlocks.FromFreedComplete` | contracts/eosiolib/eosiolib.cpp:293-316 | The search succeeds if and only if some run of adjacent free blocks can hold the request |
| `HeapBlocks.FromFreedFirst` | contracts/eosiolib/eosiolib.cpp:293-316 | The search is first fit: the payload starts where the first run that holds the request starts |
| `HeapBlocks.FromFreedFails` | contracts/eosiolib/eosiolib.cpp:293-316 | After a failed search the merged blocks still cannot hold the request |
| `HeapMemory.Heap.Malloc` | contracts/eosiolib/eosiolib.cpp:279-291 | Bump allocation appends one block, fails exactly for lack of room, keeps the tiling and hits no live payload; a request whose 32 bit sum wraps around is always granted and does not move the offset forward |
| `HeapMemory.Heap.CleanupRemaining` | contracts/eosiolib/eosiolib.cpp:372-382 | The rest of the heap becomes one free block; the heap is then tiled to its end |
| `HeapMemory.Heap.ExpandMemory` | contracts/eosiolib/eosiolib.cpp:384-392 | A heap grows exactly when the new memory follows it, and nothing live changes |
| `HeapMemory.Heap.Free` | contracts/eosiolib/eosiolib.cpp:366-370 | Freeing removes one live payload, keeps all block boundaries and every payload word |
| `HeapMemory.Heap.Walk` | contracts/eosiolib/eosiolib.cpp:475-484 | The merge loop computes how far the words read as free blocks |
| `HeapMemory.WalkGrows` | contracts/eosiolib/eosiolib.cpp:475-484 | Over tiled memory that is exactly how far the adjacent free blocks reach |
| `HeapMemory.Heap.MergeContiguous` | contracts/eosiolib/eosiolib.cpp:469-501 | Merging rewrites headers so that the heap is still tiled, with the run cut to size and the remainder a valid free block |
| `HeapMemory.Heap.Visit` | contracts/eosiolib/eosiolib.cpp:300-311 | One step of the search takes the merged run or steps over it, and the rest of the search is unchanged |
| `HeapMemory.Heap.MallocFromFreed` | contracts/eosiolib/eosiolib.cpp:293-316 | The search over in-band headers equals first fit over the blocks, and no header write hits a live payload |
| `HeapManager.MemoryManager.Sbrk` | contracts/eosiolib/eosiolib.cpp:5-39 | Memory grows exactly when the host grants the pages, by no more pages than needed |
| `HeapManager.MemoryManager.NextActiveHeap` | contracts/eosiolib/eosiolib.cpp:82-119 | Memory grows if and only if the host has pages left, and then by one page, which extends the active heap or opens slot 1; otherwise the allocator is exhausted |
| `HeapManager.MemoryManager.Bump` | contracts/eosiolib/eosiolib.cpp:148-156 | Bump allocation succeeds if and only if the active heap has room or can grow to have it, grows only when it has none and by no more pages than it takes, and fails only when the host has none left; a wrapping request is granted at once |
| `HeapManager.MemoryManager.Reuse` | contracts/eosiolib/eosiolib.cpp:158-173 | The search over all closed heaps tries each one; failure means none can hold the request; the check at line 295 never fires |
| `HeapManager.MemoryManager.Malloc` | contracts/eosiolib/eosiolib.cpp:121-176 | Success adds exactly one payload of the adjusted size and disturbs no other, at the end of the active heap as long as that can hold it or grow to; failure means the host has no pages left and no freed run fits; if the room test wraps around, a payload is granted and the offset does not move forward |
| `HeapManager.MemoryManager.FindHeap` | contracts/eosiolib/eosiolib.cpp:226-233 | The scan over the heaps finds the heap a live payload belongs to |
| `HeapManager.MemoryManager.Free` | contracts/eosiolib/eosiolib.cpp:221-235 | `free` removes exactly the given payload, does nothing for a null pointer, and disturbs no payload |
| `HeapManager.MemoryManager.LiveMemoryIsDisjoint` | contracts/eosiolib/eosiolib.cpp:121-235 | In every reachable state any two live payloads occupy disjoint addresses, across heaps too |
| `HeapManager.AdjustedRoundsUp` | contracts/eosiolib/eosiolib.cpp:237-244 | Rounding a request up in 32 bits is right if and only if the request leaves four bytes of address space |
| `HeapManager.BumpTestIsExact` | contracts/eosiolib/eosiolib.cpp:281-285 | The room test on the wrapped sum is right if and only if the sum does not wrap |
| `HeapManager.BumpTestWraps` | contracts/eosiolib/eosiolib.cpp:281-285 | A concrete request that wraps and passes the test |
| `HeapRealloc.GrowOver` | contracts/eosiolib/eosiolib.cpp:358-363 | Growing over the following blocks in place: when it succeeds, what it keeps, and that a walk which strays claims success |
| `HeapRealloc.GrowLast` | contracts/eosiolib/eosiolib.cpp:347-354 | The last block takes the new size and the offset moves with it |
| `HeapRealloc.ShrinkTiles` | contracts/eosiolib/eosiolib.cpp:338-346 | Shrinking writes a header into the part given up; tiling, other payloads and the first bytes are kept |
| `HeapRealloc.LastTiles` | contracts/eosiolib/eosiolib.cpp:347-354 | The last block grows in place and the heap stays tiled |
| `HeapRealloc.GrowTiles` | contracts/eosiolib/eosiolib.cpp:358-363 | Growing over following free blocks keeps the tiling, the contents and all other payloads |
| `HeapRealloc.ReallocInPlace` | contracts/eosiolib/eosiolib.cpp:318-364 | In-place resizing of any live block: when sane, exactly when it succeeds and that tiling, other payloads and the common contents are kept; otherwise it claims success, and no blocks that describe the heap it leaves hold that payload |
| `HeapRealloc.FitTestIsExact` | contracts/eosiolib/eosiolib.cpp:332-336 | The fit test is right if and only if the request is not larger than the address where the heap ends |
| `HeapRealloc.WalkRunsOff` | contracts/eosiolib/eosiolib.cpp:475-484 | In every reachable heap a walk that runs off the tiled part finds exactly what it wants, and the next block carved lies inside it |
| `HeapRealloc.NoBlocksFit` | contracts/eosiolib/eosiolib.cpp:318-364 | No blocks describe a heap whose offset lies beyond its end, and none hold a payload that ends beyond the offset |
| `HeapInstances.StrayIsReached` | contracts/eosiolib/eosiolib.cpp:358-363 | Five calls on a new heap after which the offset lies inside a live payload: the merge walk has strayed |
| `HeapInstances.FitWrapsIsReached` | contracts/eosiolib/eosiolib.cpp:332-354 | Three calls on a new heap after which the offset lies beyond its end: the fit test has wrapped around |
| `HeapInstances.PageIsGranted` | contracts/eosiolib/eosiolib.cpp:148-156 | A request too large for the static heap is granted on a new allocator whose host has pages left |
| `HeapResize.Resize` | contracts/eosiolib/eosiolib.cpp:188-204 | In-place resizing seen from the whole allocator: when sane it succeeds if and only if the payload can have the size where it is, and all other payloads and the common contents are kept at their addresses; otherwise the payload overruns its heap |
| `HeapResize.Copy` | contracts/eosiolib/eosiolib.cpp:211-216 | The copy loop transfers the words and writes nowhere outside the target payload |
| `HeapResize.Move` | contracts/eosiolib/eosiolib.cpp:207-218 | Moving a payload allocates, copies and frees, keeping its contents and every other payload |
| `HeapResize.Realloc` | contracts/eosiolib/eosiolib.cpp:178-219 | `realloc` returns a payload of the adjusted size holding the old contents as far as both reach, at the same address if and only if it fits there; failure changes nothing and means that the host has no pages left and no free run fits; zero frees; a null pointer allocates, a wrapping request included; a resize that is not sane claims success and overruns |
| `DiceRuns.OfferBetKeepsInv` | contracts/dice/dice.cpp:36-122 | An accepted bet keeps conservation, counters, uniqueness and the rule that no match is missed |
| `DiceRuns.CancelKeepsInv` | contracts/dice/dice.cpp:125-141 | Cancelling returns the bet and keeps the book in order |
| `DiceRuns.PayKeepsInv` | contracts/dice/dice.cpp:365-388 | Settling a game always finds both accounts, pays both stakes to the winner and keeps the book in order |
| `DiceRuns.RevealKeepsInv` | contracts/dice/dice.cpp:144-191 | A reveal succeeds if and only if the secret matches, the commitment is in a game and has no nonzero secret yet; it keeps the book in order |
| `DiceRuns.ClaimKeepsInv` | contracts/dice/dice.cpp:194-213 | Claiming an expired game keeps the book in order |
| `DiceRuns.DepositKeepsInv` | contracts/dice/dice.cpp:216-237 | A deposit enters one account and the escrow total |
| `DiceRuns.WithdrawKeepsInv` | contracts/dice/dice.cpp:240-263 | A withdrawal leaves one account and the escrow total; a row with offers or games is never erased |
| `DiceLaws.OfferLaw` | contracts/dice/dice.cpp:36-122 | An offer is taken if and only if its bet is positive and covered and its commitment unused; it costs its player the bet and nobody else anything |
| `DiceLaws.MatchLaw` | contracts/dice/dice.cpp:57-116 | It is matched exactly when the oldest open offer of the same bet is somebody else's, and what the new game holds |
| `DiceLaws.NoMatchLaw` | contracts/dice/dice.cpp:61-69 | With no other offer of the same bet it stays open |
| `DiceLaws.CancelLaw` | contracts/dice/dice.cpp:125-141 | Exactly an open offer can be cancelled; its bet goes back to its owner |
| `DiceLaws.FirstRevealLaw` | contracts/dice/dice.cpp:144-190 | The first reveal stores the secret and gives the other player five minutes |
| `DiceLaws.SecondRevealLaw` | contracts/dice/dice.cpp:165-178 | The second one gives both bets to the player whom the hash of the stored seats picks |
| `DiceLaws.ExpiryLaw` | contracts/dice/dice.cpp:194-213 | After the deadline the first player if it has revealed, else the second, gets both bets |
| `DiceLaws.PayLaw` | contracts/dice/dice.cpp:365-388 | A settlement pays the winner both bets and nobody else anything |
| `DiceLaws.DepositLaw` | contracts/dice/dice.cpp:216-237 | A deposit succeeds if and only if it is positive, and goes to its account |
| `DiceLaws.WithdrawLaw` | contracts/dice/dice.cpp:240-263 | A withdrawal succeeds if and only if it is positive and covered; it comes out of that account, whose row goes when it is empty |
| `DiceRuns.RunKeepsInv` | contracts/dice/dice.cpp:36-263 | In every run: escrow equals balances plus open bets plus twice every live game, counters are true counts, no match is missed, every game has two offers of distinct owners |
| `DiceRuns.CountsNonNegative` | contracts/dice/dice.cpp:333-334 | No counter is negative, so no decrement underflows |
| `DiceRuns.OwnerIsCounted` | contracts/dice/dice.cpp:336 | Whoever owns an offer or sits in a game has a positive counter, so the account row is not erased |
| `DiceOutcomes.ExpiryPaysFirstRevealer` | contracts/dice/dice.cpp:194-213 | After the deadline the first revealer is paid if and only if the secret is not all zero or was revealed from the second seat |
| `DiceOutcomes.ZeroSecretIsReached` | contracts/dice/dice.cpp:36-191 | A run from the empty contract to an all-zero reveal from the first seat |
| `DiceOutcomes.ZeroSecretLoses` | contracts/dice/dice.cpp:194-213 | There the claim pays the player who never revealed |
| `DiceOutcomes.ActionPins` | contracts/dice/dice.cpp:36-263 | No action but a first reveal changes a live game: it ends it or leaves it and its offers alone |
| `DiceOutcomes.StakesStayLocked` | contracts/dice/dice.cpp:194-199 | A game nobody revealed for stays, with both stakes, in every run in which neither player reveals, and no claim can end it |
| `DiceOutcomes.WinnerIsFixed` | contracts/dice/dice.cpp:165-178 | From the first nonzero reveal on the winner is settled: through every run, whenever and with whatever secret the other player reveals, the same offer is paid |
| `DiceContract.DiceBook.FindCommitment` | contracts/dice/dice.cpp:148-151 | The commitment index finds the one offer with a commitment, or none |
| `DiceContract.DiceBook.LowestOffer` | contracts/dice/dice.cpp:57-59 | The bet index yields the lowest key among equal bets |
| `DiceContract.DiceBook.OfferBet` | contracts/dice/dice.cpp:36-122 | In-place `offerbet`, storing first and matching afterwards, equals its specification, with rollback |
| `DiceContract.DiceBook.CancelOffer` | contracts/dice/dice.cpp:125-141 | In-place `canceloffer` equals its specification |
| `DiceContract.DiceBook.PayAndClean` | contracts/dice/dice.cpp:365-388 | In-place settlement equals its specification and cannot fail |
| `DiceContract.DiceBook.Reveal` | contracts/dice/dice.cpp:144-191 | In-place `reveal` equals its specification |
| `DiceContract.DiceBook.ClaimExpired` | contracts/dice/dice.cpp:194-213 | In-place `claimexpired` equals its specification |
| `DiceContract.DiceBook.Deposit` | contracts/dice/dice.cpp:216-237 | In-place `deposit` equals its specification |
| `DiceContract.DiceBook.Withdraw` | contracts/dice/dice.cpp:240-263 | In-place `withdraw` equals its specification |
| `Staking.GuardMeansSameSign` | contracts/eosio.system/delegate_bandwidth.cpp:216-218 | The guard on the deltas says exactly that they do not have opposite signs |
| `Staking.RebookAgrees` | contracts/eosio.system/delegate_bandwidth.cpp:225-274 | Delegation row, receiver totals and voting stake move together, across creation and deletion of rows |
| `Staking.RebookAborts` | contracts/eosio.system/delegate_bandwidth.cpp:243-267 | Only the delegation row itself can run short: the checks on the totals and the voting stake never fail on their own |
| `StakingRuns.NetLaw` | contracts/eosio.system/delegate_bandwidth.cpp:292-339 | Netting against a pending refund neither makes nor loses stake, never goes negative and keeps no empty row |
| `StakingRuns.SettleBacks` | contracts/eosio.system/delegate_bandwidth.cpp:276-356 | Tokens in eosio.stake and pending refunds move by amounts that differ by exactly the stake change |
| `StakingRuns.ChangeBwBacks` | contracts/eosio.system/delegate_bandwidth.cpp:211-381 | A stake change keeps eosio.stake backed if and only if the payer is not eosio.stake |
| `StakingRuns.ChangeBwAgrees` | contracts/eosio.system/delegate_bandwidth.cpp:211-381 | Both sides of every delegation agree after a stake change, the transfer flag included |
| `StakingLaws.PayerPays` | contracts/eosio.system/delegate_bandwidth.cpp:276-356 | Exactly the part of a stake change that a pending refund does not cover goes from the payer to eosio.stake, and no other account gains or loses a token |
| `StakingLaws.RowsMove` | contracts/eosio.system/delegate_bandwidth.cpp:225-274 | The delegation, the totals of its receiver and the stake voted with move by exactly the change, and no other |
| `StakingLaws.RefundMoves` | contracts/eosio.system/delegate_bandwidth.cpp:276-339 | Stake taken back joins the refund and restarts its delay; stake added to oneself comes out of it and does not; other stake and other accounts leave it alone |
| `StakingLaws.DelegateSucceeds` | contracts/eosio.system/delegate_bandwidth.cpp:383-393 | Delegating succeeds if and only if both amounts are nonnegative and not both zero, the transfer flag is not set for oneself, and the payer has what it costs |
| `StakingLaws.RunKeepsTokens` | contracts/eosio.system/delegate_bandwidth.cpp:211-423 | In every run, whoever pays, no token is made and none is lost |
| `StakingRuns.UndelegateAborts` | contracts/eosio.system/delegate_bandwidth.cpp:395-405 | In the staking tables undelegating fails only for lack of delegated stake or before activation |
| `StakingVotes.RestakeLaw` | contracts/eosio.system/delegate_bandwidth.cpp:358-380 | On registered ballots a stake change succeeds exactly when the stake does not go negative, and moves one stake |
| `StakingVotes.VoteNeverStandsInTheWay` | contracts/eosio.system/delegate_bandwidth.cpp:211-405 | Delegating and undelegating, with the vote that is cast again, succeed exactly when the staking tables allow it |
| `StakingVotes.ActionKeepsLinked` | contracts/eosio.system/delegate_bandwidth.cpp:358-380 | The stake that staking books and the stake in the voter row stay equal for every account |
| `StakingVotes.RunKeepsSound` | contracts/eosio.system/delegate_bandwidth.cpp:211-423 | In every run of staking and voting actions together eosio.stake holds what is delegated and pending, both stakes agree, and the votes are in order |
| `StakingVotes.GenesisIsSound` | contracts/eosio.system/delegate_bandwidth.cpp:211-423 | Before anything is staked or voted all of that holds |
| `StakingVotes.StakeCanBeTakenBack` | contracts/eosio.system/delegate_bandwidth.cpp:358-405 | In every state of every such run stake can be taken back if and only if that much was delegated and the chain is activated, and the voter row has exactly what its owner delegates |
| `BandwidthContract.Bandwidth.constructor` | contracts/eosio.system/delegate_bandwidth.cpp:211-381 | Both groups of tables start empty |
| `BandwidthContract.Bandwidth.DelegateBw` | contracts/eosio.system/delegate_bandwidth.cpp:211-393 | In-place `delegatebw` over both groups of tables equals its specification; a failure of either rolls both back |
| `BandwidthContract.Bandwidth.UndelegateBw` | contracts/eosio.system/delegate_bandwidth.cpp:211-405 | In-place `undelegatebw` over both groups of tables equals its specification, with rollback |
| `StakingRuns.RefundIsPaid` | contracts/eosio.system/delegate_bandwidth.cpp:408-423 | A due refund is always paid, in full, and never pays nothing |
| `StakingLaws.RefundPays` | contracts/eosio.system/delegate_bandwidth.cpp:408-423 | A refund moves what was pending from eosio.stake to its owner, empties the row, and touches nothing else |
| `StakingRuns.RowTime` | contracts/eosio.system/delegate_bandwidth.cpp:292-339 | The time of a refund changes only when its owner takes stake back |
| `StakingRuns.RunKeepsAgreement` | contracts/eosio.system/delegate_bandwidth.cpp:211-423 | In every run, whoever pays, receiver totals and voting stakes equal the sums over the delegations |
| `StakingRuns.RunKeepsInv` | contracts/eosio.system/delegate_bandwidth.cpp:211-423 | eosio.stake holds the sum of all delegations and pending refunds in every state along a run if and only if no stake change of eosio.stake itself is accepted in it |
| `StakingRuns.StakeStakes` | contracts/eosio.system/delegate_bandwidth.cpp:276-277 | An instance: one unit staked by eosio.stake is backed by nothing |
| `StakingRuns.GenesisKeepsInv` | contracts/eosio.system/delegate_bandwidth.cpp:211-423 | Before anything is staked the invariant holds |
| `StakingRuns.RefundDelay` | contracts/eosio.system/delegate_bandwidth.cpp:408-422 | Over every run, whoever pays: whatever a refund pays was undelegated at least three days before, however many undelegations share the row |
| `StakingRuns.RefundAmount` | contracts/eosio.system/delegate_bandwidth.cpp:292-339 | Over every run a refund pays something, and at most what its owner undelegated since the row was last empty |
| `StakingContract.StakingTables.NetRefund` | contracts/eosio.system/delegate_bandwidth.cpp:292-339 | The step-by-step rewriting of the refund row equals its specification |
| `StakingContract.StakingTables.ChangeBw` | contracts/eosio.system/delegate_bandwidth.cpp:211-364 | In-place `changebw` up to the voting stake equals its specification, with rollback |
| `StakingContract.StakingTables.DelegateBw` | contracts/eosio.system/delegate_bandwidth.cpp:383-393 | In-place `delegatebw` equals its specification |
| `StakingContract.StakingTables.UndelegateBw` | contracts/eosio.system/delegate_bandwidth.cpp:395-405 | In-place `undelegatebw` equals its specification |
| `StakingContract.StakingTables.PayRefund` | contracts/eosio.system/delegate_bandwidth.cpp:408-423 | In-place `refund` equals its specification |
| `ProducerPay.VotesAreShares` | contracts/eosio.system/producer_pay.cpp:114-117 | The voting tallies make every producer votes a share of the total |
| `ProducerPay.DrawsAreCovered` | contracts/eosio.system/producer_pay.cpp:110-120 | Neither draw ever exceeds its bucket |
| `ProducerPay.SharesAddUp` | contracts/eosio.system/producer_pay.cpp:87-90 | The split of new tokens loses nothing, and both producer parts are positive from twenty units on |
| `ProducerPay.FillKeepsFunded` | contracts/eosio.system/producer_pay.cpp:84-108 | Filling fails exactly when less than twenty units of inflation are to be split, and keeps the buckets equal to what their accounts hold |
| `PayLaws.BlockIsCounted` | contracts/eosio.system/producer_pay.cpp:20-43 | A block counts once for its producer, if registered, once enough stake takes part; the first starts the clock |
| `PayLaws.InflationLaw` | contracts/eosio.system/producer_pay.cpp:84-85 | New tokens are 4.879 percent of the supply per 364 days, truncated |
| `PayLaws.BucketsAreFilled` | contracts/eosio.system/producer_pay.cpp:82-108 | How new tokens are split over savings and the two buckets, and when nothing happens |
| `ProducerPay.ClaimKeepsFunded` | contracts/eosio.system/producer_pay.cpp:68-138 | With funded buckets and any tallies, a claim that passes its checks is refused exactly when there is too little inflation to split or the votes claim more than the per-vote bucket |
| `PayLaws.ClaimIsAccepted` | contracts/eosio.system/producer_pay.cpp:68-136 | When a claim is accepted, in numbers |
| `PayLaws.ClaimPays` | contracts/eosio.system/producer_pay.cpp:110-136 | A claim pays its producer the truncated share of the per-block bucket by unpaid blocks and of the per-vote bucket by votes, nothing of the latter below a hundred tokens, and starts that producer over |
| `ProducerPay.ClaimKeepsInv` | contracts/eosio.system/producer_pay.cpp:68-138 | With exact tallies a claim is paid exactly when the producer is active, a day has passed, the chain is activated and inflation can be split |
| `ProducerPay.OnBlockKeepsFunded` | contracts/eosio.system/producer_pay.cpp:37-43 | Counting a block keeps the total equal to the sum over producers |
| `ProducerPay.OnVotingKeepsFunded` | contracts/eosio.system/voting.cpp:126-286 | Votes and registrations never unsettle the funds |
| `ProducerPay.OnVotingKeepsInv` | contracts/eosio.system/voting.cpp:126-286 | They keep the tallies that per-vote pay rests on if and only if no weight change is lost |
| `ProducerPay.RunKeepsFunded` | contracts/eosio.system/producer_pay.cpp:20-138 | In every run of votes, blocks and claims, whatever is lost, unpaid blocks add up, both buckets are nonnegative and funded, and every issued token is saved, waiting or paid |
| `ProducerPay.RunKeepsInv` | contracts/eosio.system/producer_pay.cpp:68-138 | In every run that loses no weight change the tallies stay exact, so every claim finds its pay |
| `PayInstances.WaitingIsReached` | contracts/eosio.system/producer_pay.cpp:20-43 | A run from the start in which the clamp leaves a producer more votes than the total |
| `PayInstances.LostChangeStopsPay` | contracts/eosio.system/producer_pay.cpp:114-136 | There the claim of that producer, the only one with votes, is refused |
| `PayInstances.PayStopsInJuly` | contracts/eosio.system/producer_pay.cpp:66-136 | The factors of weeks 965 and 966 with small stakes are such a case |
| `ProducerPay.GenesisKeepsInv` | contracts/eosio.system/producer_pay.cpp:20-31 | The invariant holds at the start |
| `PayContract.Payroll.constructor` | contracts/eosio.system/producer_pay.cpp:20-43 | The pay tables start with a row for each registered producer, funded |
| `PayContract.Payroll.RegProducer` | contracts/eosio.system/voting.cpp:37-61 | Registering through the pay tables adds the row that blocks and claims are counted on |
| `PayContract.Payroll.Vote` | contracts/eosio.system/voting.cpp:126-129 | Voting through the pay tables equals its specification and keeps them funded |
| `PayContract.Payroll.RegProxy` | contracts/eosio.system/voting.cpp:236-253 | The same for registering a proxy |
| `PayContract.Payroll.ChangeStake` | contracts/eosio.system/delegate_bandwidth.cpp:358-380 | The same for a stake change |
| `PayContract.Payroll.UnregProducer` | contracts/eosio.system/voting.cpp:63-71 | The same for leaving |
| `PayContract.Payroll.OnBlock` | contracts/eosio.system/producer_pay.cpp:20-43 | In-place block counting equals its specification |
| `PayContract.Payroll.FillBuckets` | contracts/eosio.system/producer_pay.cpp:84-108 | In-place filling equals its specification |
| `PayContract.Payroll.ClaimRewards` | contracts/eosio.system/producer_pay.cpp:68-138 | In-place claim equals its specification in every funded state; a claim an account cannot cover takes back the filling too |
| `AccountNames.SameCharsSameName` | contracts/eosiolib/types.hpp:77-105 | A 64 bit name is determined by its thirteen characters |
| `AccountNames.NameSuffix` | contracts/eosiolib/types.hpp:77-105 | The loop over the characters yields the suffix of its specification |
| `AccountNames.SuffixIsWhole` | contracts/eosiolib/types.hpp:77-105 | A name that is not empty is its own suffix if and only if no dot stands before another of its characters |
| `AccountNames.SuffixLaw` | contracts/eosiolib/types.hpp:77-105 | The suffix is what stands behind the last dot with another character behind it |
| `AccountNames.BiddableMeans` | contracts/eosio.system/eosio.system.cpp:99-102 | The checks on the name pass exactly for one to eleven letters without a dot between them |
| `NameAuction.PlaceBidKeepsInv` | contracts/eosio.system/eosio.system.cpp:97-135 | A bid is taken exactly when it is for such a name, not taken yet, covered and more than a tenth above somebody else; closed auctions take no bids; the refund never fails |
| `NameAuction.BidIsStored` | contracts/eosio.system/eosio.system.cpp:109-135 | An accepted bid is stored with its own bidder, amount and time, and eosio.names gains what it exceeds the one it replaces by |
| `NameAuction.KeyOrder` | contracts/eosio.system/eosio.system.hpp:26-30 | In the unsigned order of negated bids, closed rows come before open ones and higher bids before lower ones |
| `NameAuction.FirstIsHighest` | contracts/eosio.system/producer_pay.cpp:50-54 | The first row of the index is open only if no closed auction is unclaimed, and then it is the highest bid |
| `NameAuction.CloseKeepsInv` | contracts/eosio.system/producer_pay.cpp:45-64 | Closing, with all its waiting periods, picks the highest open bid, and only when no closed auction is unclaimed |
| `NameAuction.ClosingLaw` | contracts/eosio.system/producer_pay.cpp:45-64 | When an auction closes, in numbers, and that its sign and the two times are all that change |
| `NameAuction.ClosingsAreADayApart` | contracts/eosio.system/producer_pay.cpp:45-64 | In every run two closings are more than a day of block slots apart |
| `NameAuction.ClaimKeepsInv` | contracts/eosio.system/eosio.system.cpp:162-168 | A claim removes the one closed auction |
| `NameAuction.ClaimLaw` | contracts/eosio.system/eosio.system.cpp:162-168 | Exactly the highest bidder of a closed auction claims it |
| `NameAuction.RunKeepsInv` | contracts/eosio.system/eosio.system.cpp:97-168 | In every run eosio.names holds exactly the standing bids plus the claimed ones, and at most one auction is closed and unclaimed |
| `NameAuction.NameBids.BidName` | contracts/eosio.system/eosio.system.cpp:97-135 | In-place `bidname` equals its specification |
| `NameAuction.NameBids.First` | contracts/eosio.system/producer_pay.cpp:51-53 | The index yields the first row by key and name |
| `NameAuction.NameBids.CloseHighest` | contracts/eosio.system/producer_pay.cpp:45-64 | In-place closing equals its specification on the first row of the index, and flips the sign of exactly the highest bid |
| `NameAuction.NameBids.ClaimName` | contracts/eosio.system/eosio.system.cpp:162-168 | In-place claim equals its specification |
| `Election.IndexRanks` | contracts/eosio.system/eosio.system.hpp:75 | Among eligible rows the index goes by votes, then by name |
| `Election.BlockedByNegative` | contracts/eosio.system/eosio.system.hpp:75 | Only an inactive producer with negative votes can stand before an eligible one |
| `Election.ExactTalliesElect` | contracts/eosio.system/voting.cpp:76-83 | With exact tallies nothing is ever in the way |
| `ElectionInstances.NegativeVotesBlock` | contracts/eosio.system/voting.cpp:81-83 | A run from the empty tables after which an inactive producer with negative votes keeps the only eligible one out |
| `ElectionInstances.ScheduleIsBlockedInJuly` | contracts/eosio.system/voting.cpp:81-83 | The factors of weeks 965 and 966 with small stakes are such a case |
| `Election.PrefixIsTop` | contracts/eosio.system/voting.cpp:81-83 | Stopping at the first ineligible row yields exactly the top three, or all, eligible producers if and only if no ineligible row among the first three stands before an eligible one |
| `Election.TopIsUnique` | contracts/eosio.system/voting.cpp:81-83 | The election is determined by the producers alone |
| `Election.Schedule.Update` | contracts/eosio.system/voting.cpp:73-103 | The loop computes the top producers if and only if none is blocked, and the accepted schedule size never shrinks |
| `Token.RangeCheckIsExact` | contracts/eosiolib/asset.hpp:115-137 | Checking the range after a wrapping addition or subtraction catches every overflow and refuses no correct result |
| `Token.BalanceWithinSupply` | contracts/eosio.token/eosio.token.cpp:87-116 | No balance exceeds the supply, so none leaves the range of amounts |
| `Token.SubBalanceLaw` | contracts/eosio.token/eosio.token.cpp:87-101 | Taking from a balance succeeds exactly when it covers the amount, and lowers that balance and its sum only |
| `Token.AddBalanceLaw` | contracts/eosio.token/eosio.token.cpp:103-116 | Adding within the maximum never overflows, and raises that balance and its sum only |
| `Token.TransferKeepsInv` | contracts/eosio.token/eosio.token.cpp:62-85 | A transfer fails only on its own checks, moves the amount between the two balances and touches no other |
| `Token.IssueKeepsInv` | contracts/eosio.token/eosio.token.cpp:32-60 | Issuing succeeds exactly within the maximum supply and raises the supply and the receiver balance alike |
| `Token.CreateKeepsInv` | contracts/eosio.token/eosio.token.cpp:10-29 | A new token starts balanced |
| `Token.CreateLaw` | contracts/eosio.token/eosio.token.cpp:10-29 | A token is created if and only if its maximum is positive and representable and its code new |
| `Token.RunKeepsInv` | contracts/eosio.token/eosio.token.cpp:10-116 | In every run, for every symbol, supply is the sum of all balances and at most the maximum |
| `TokenContract.Ledger.Create` | contracts/eosio.token/eosio.token.cpp:10-29 | In-place `create` equals its specification |
| `TokenContract.Ledger.SubBalance` | contracts/eosio.token/eosio.token.cpp:87-101 | In-place subtraction, erasing an emptied row, equals its specification |
| `TokenContract.Ledger.AddBalance` | contracts/eosio.token/eosio.token.cpp:103-116 | In-place addition equals its specification |
| `TokenContract.Ledger.Transfer` | contracts/eosio.token/eosio.token.cpp:62-85 | In-place `transfer` equals its specification, with rollback |
| `TokenContract.Ledger.Issue` | contracts/eosio.token/eosio.token.cpp:32-60 | In-place `issue` equals its specification, with rollback |

## Left out

- Voting.Propagate: weights are exact reals; `stake2vote` is any function that is nonnegative on nonnegative stakes, except in `VotingLinear`, `VotingSteepness` and `VotingClock`, where it is the stake times a factor. The rounding of doubles and of `std::pow` is not modelled.
- Voting.UpdateVotes: with `voting` false the proxy must be the stored one, which is how `changebw`, the only such caller, calls it. `rank`, a witness that the proxy graph has no cycle, is not a table of the contract. The time at which the activation threshold is met is not kept, and nothing is claimed about the meaning of the activated stake.
- VotingClock.ClockIsSteep: the 52nd root of two is a parameter `r` with `r` to the power of 52 equal to 2; that such a real exists is not proved.
- StakingVotes.RunKeepsSound: eosio.stake does not stake for itself, and weights are proportional to stake at factors more than one vote per unit apart.
- RamMarket.TradeLaw: conversions are exact rational arithmetic followed by truncation, for every exponent of at least 2; the contract's weight gives 2000. Rounding of doubles is not modelled, and neither is an amount beyond 64 bits.
- RamMarket.BuyRamKeepsSolvent: the fee goes to eosio.ramfee, whose balance is not followed; `funds` stands for what the payer can spend.
- HeapManager.MemoryManager.Malloc: memory stays below 2 GiB, only this code calls `sbrk`, memory comes from the host as zeros, and the static first heap does not end where memory ends. A request that wraps around is granted; what later calls do to the heap after that is not modelled.
- HeapManager.MemoryManager.Free: requires a null pointer or a live payload, as the C standard demands; freeing anything else is not modelled.
- HeapRealloc.ReallocInPlace: what later calls do to a heap after a resize that was not sane is not modelled. A shrinking block keeps its old size in its header, as in the code, so the freed part is not reusable.
- HeapResize.Realloc: does not follow a payload that moves while the room test wraps around, since the copy then works on a broken heap. Memory is modelled by four-byte words, so contents are compared at multiples of four.
- HeapResize.Move: does not cover a wrapping request, for the same reason; `HeapManager.MemoryManager.Malloc` says what such a request is granted.
- Election.Schedule.Update: the final sorting by name, the packing and the host call are not modelled.
- StakingContract.StakingTables.ChangeBw: the vote that is cast again is `BandwidthContract.Bandwidth.DelegateBw`.
- StakingRuns.RunKeepsInv: eosio.stake is moved by these actions only. Deferred refund transactions and the vesting of the account b1 are not modelled.
- ProducerPay.RunKeepsFunded: the token supply is an input, and inflation, bucket and vote shares are exact reals, truncated where the code truncates. The accounts eosio.bpay and eosio.vpay are moved by this contract only.
- ProducerPay.FillKeepsFunded: the clock does not run backwards past the last filling.
- NameAuction.PlaceBidKeepsInv: whether the account exists already and whether the bid is in the core token is one input flag.
- NameAuction.BidIsStored: the balances of bidders are not followed, only that of eosio.names.
- NameAuction.CloseKeepsInv: block slots are unbounded numbers, and the time since which voting is activated is an input.
- DiceContract.DiceBook.OfferBet: the primary key is an input above every key in use, as the table hands it out.
- DiceRuns.RevealKeepsInv: SHA-256 is an input: whether the secret matches its commitment, and an arbitrary function of the two seats that picks the winner. Counters are unbounded.
- Token.TransferKeepsInv: the existence of the receiving account is an input; memos are not modelled.
- Amounts outside the token contract are unbounded integers.
- Authorisation, notification of recipients, resource limits and RAM billing of rows.
- The secondary indices of `multi_index` are modelled by their order: by key, then by primary key.
- `calloc`, the other system actions, the contracts msig, sudo, bios, bancor and the example contracts, `datastream`, `fixed_key` and the deprecated currency code: they would add only easy members.
- The mobile applications and the web service around the contracts.
