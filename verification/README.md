# Tessera: the settlement engine, verified

Tessera runs crash and roulette rounds on a double-entry ledger. This project models what decides who is
paid: the ledger and its database guards, the bet and round state machines with their row locks, the engine's tick, the
integer arithmetic of curve, draw, wheel and payout, the hash chain that commits outcomes, refresh-token
families and ledger paging. It proves, for every input, every run or every interleaving, that bets are settled
exactly once, that no credit appears or disappears, exactly when the system can deadlock or drain, and what the house keeps.

## How it is organised

- `Money`, `CrashCurve`, `Fairness`, `Roulette`, `Chain`, `Paging`, `RefreshTokens`: arithmetic and the small state
  machines. Loops of the original are loops here (the binary search, the hashing loops, the table scans) and
  are proved against a function that says what they compute.
- `Ledger`, `Tables`, `Operations`: postings, rows with their CHECK constraints, and each operation as one set of writes.
  The invariant `Tables.Consistent` says that the journal holds about each bet and each user exactly what its row calls
  for. Balances as closed forms are a consequence of it.
- `Interleaving*`: the concurrent system. A transaction is a program counter, the locks it holds and its buffered writes;
  one event runs one statement of one transaction, starts one, aborts one, or lets time pass. A statement waits for its lock, then
  reads the latest committed row; a commit overwrites rows with the buffered ones. `InterleavingState.Safe` is the
  invariant, `InterleavingRely` shows that it is stable under the other transactions' commits, and the remaining
  `Interleaving*` files show that each statement keeps it.
- `Atomicity` and `Realised`: the concurrent system and the sequence of whole operations, each proved to be what the
  other does.
- `Rows` and `Refusals`: what each operation does and why a request is refused, spelled out from columns, postings and
  numbers alone and proved to be exactly what the functions compute.
- `Guarantees`, `Placing`, `Burst`: what follows for whole runs.
- `Deadlock`, `Draining`, `DeadlockReached`: exactly when waits close into a cycle, exactly when everything in flight can
  still finish, and the schedules on which neither does.
- `Progress`: the tick on a round's row and on the table of rounds, and that ticking concludes every round.
- `Nonces`: the sequence that numbers rounds beside the peeked nonce their outcomes are drawn for.
- `Services`, with `Bookkeeping`: the services as methods of one class over mutable tables, run one at a time, with
  rollback. They are proved to perform the same operations that the concurrent system is proved to refine.

## Where the code and its comments differ

The model follows the code. In each case a lemma shows the difference.

- `src/ledger/ledger.service.ts:91-96` says that with sorted postings a lock cycle cannot form, and
  `src/rounds/rounds.service.ts:141-142` that a bet and the resolver cannot deadlock. `placeBet` takes its wallet before ESCROW,
  pay-outs take ESCROW before wallets: `DeadlockReached.TheCycleCanForm` is a run of statements from the empty tables into the cycle,
  `DeadlockReached.PlacementMeetsPayout` the schedule in general, and `Deadlock.DeadlockIff` says exactly when there is a cycle.
  The two are doomed before they wait: `DeadlockReached.NoCycleIsNotEnough` is a run into a state without a cycle that no
  schedule finishes, and `Draining.DrainsIff` says exactly which states can be finished.
- `packages/contracts/src/fairness.ts:19-22` calls the draw break-even at every multiplier. It is break-even at
  1.00x only (`Fairness.BreakEvenOnlyAtOne`).
- `migrations/1757900005000_fairness-chain.sql:44-45` says that chains must not overlap; the unique index there does not ensure it
  (`Chain.DescendingNonceOverlaps`). They do not overlap for nonces requested in ascending order (`Chain.SuccessionNeverOverlaps`), which
  is how the engine requests them (`Nonces.EngineChainsNeverOverlap`).
- `migrations/1757900002000_rounds-and-bets.sql:19` calls the row's nonce the one the outcome is derived from. The
  outcome is derived from a peeked nonce; the two agree exactly when no insert was refused since the last accepted one
  (`Nonces.DrawnIsGivenIff`). `Services.BurnANonce` is three calls after which a row with nonce 3 has the outcome drawn for 2.
- `voidRound` does not refuse a RESOLVED round; the CHECK `rounds_voided_has_no_crash` aborts it
  (`Services.Platform.VoidRound`, `Guarantees.GuardsNeverRefuse`).
- `packages/contracts/src/crash-curve.ts:26` puts the cap at a little over 1000x; 694 ticks give slightly less. The
  model only uses the cap as the value of the formula.

## Model

| member | source | states |
|---|---|---|
| Money.ScaleIsTheFloor | packages/contracts/src/money.ts:50-65 | the payout is the one integer p with p <= amount * bp / 10000 < p + 1 |
| Money.PricesAreSafeOrRefused | packages/contracts/src/money.ts:50-65 | a price is refused exactly for a negative input or a result beyond 2^53 - 1, with the right error, and is the floor otherwise |
| Money.PayoutCoversStake | packages/contracts/src/money.ts:50-65 | a multiplier of at least 1.00x never returns less than the stake |
| Money.SplittingNeverLeaksUpward | packages/contracts/src/money.ts:39-65 | however a stake is split into n parts, the parts' payouts sum to at most the whole's and fall short by less than n |
| CrashCurve.TickAddsAHundredth | packages/contracts/src/crash-curve.ts:21-50 | the floored curve gains at least 100 basis points with every tick |
| CrashCurve.CurveRises | packages/contracts/src/crash-curve.ts:25-50 | up to the cap the curve rises at least 100 basis points a tick, after it it is constant, and it stays between 1.00x and the maximum |
| CrashCurve.CurveIsTheFloor | packages/contracts/src/crash-curve.ts:18-67 | after n whole tenths of a second, at most 694, the curve shows the one integer m with m <= 10000 * 1.01^n < m + 1 |
| CrashCurve.CurveWaits | packages/contracts/src/crash-curve.ts:53-67 | before the first tenth of a second, and before the start, the curve shows 1.00x |
| CrashCurve.FirstTickFrom | packages/contracts/src/crash-curve.ts:70-92 | the least tick, up to the cap, whose multiplier reaches the target |
| CrashCurve.ElapsedAtMultiplier | packages/contracts/src/crash-curve.ts:70-89 | the binary search returns exactly the time of the first tick that reaches the target, for every target |
| CrashCurve.WindowMatchesResolver | packages/contracts/src/crash-curve.ts:38-92 | for every crash point in range and every elapsed time, the curve has reached it iff the engine's resolution time has come |
| CrashCurve.WindowNeverClosesAboveTheCap | packages/contracts/src/crash-curve.ts:70-92 | above the curve's maximum the search answers with the cap although the curve never gets there |
| Fairness.CrashPointInRange | packages/contracts/src/fairness.ts:47-69 | every drawn crash point is one the curve can show |
| Fairness.RollThenDraw | packages/contracts/src/fairness.ts:47-69 | one bust roll in 101 crashes at 1.00x whatever is drawn; on every other the crash point is at least k hundredths iff the entropy is at least the threshold, and is in whole hundredths or the top of the curve |
| Fairness.TopIffPastThreshold | packages/contracts/src/fairness.ts:59-68 | on a roll that does not bust the crash point is the top of the curve exactly from its threshold on |
| Fairness.FiftyTwoBits | packages/contracts/src/fairness.ts:35-37 | the entropy takes exactly 2^52 values |
| Fairness.BustCount | packages/contracts/src/fairness.ts:13-57 | among bust rolls 0..M-1, exactly ceil(M/101) crash at 1.00x for every entropy that draws above it, and all M for every other |
| Fairness.ReachesIffPastThreshold | packages/contracts/src/fairness.ts:59-68 | a draw reaches k hundredths iff the entropy is at least ceil((k-100)E/(k-1)) |
| Fairness.ReachCount | packages/contracts/src/fairness.ts:59-68 | exactly E - ceil((k-100)E/(k-1)) entropy values reach k hundredths, at most 99E/(k-1) |
| Fairness.BreakEvenOnlyAtOne | packages/contracts/src/fairness.ts:16-28 | the draw alone returns the whole stake on average iff the target is 1.00x; at every other target it returns less |
| Fairness.TotalPaidIsCountTimesPayout | packages/contracts/src/fairness.ts:47-69 | the payouts of a fixed target over all entropy values are the number of values past it times one payout |
| Fairness.HouseBound | packages/contracts/src/fairness.ts:47-69 | for every stake, cash-out tick and entropy size, the floored payouts over all entropy values sum to at most 99.99% of the stakes |
| Fairness.HouseAlwaysKeepsSomething | packages/contracts/src/fairness.ts:35-69 | with a positive stake and the real 52-bit space, the payouts sum to strictly less than the stakes |
| Fairness.RollsTakeTheirShare | packages/contracts/src/fairness.ts:47-69 | over the first M bust rolls and all entropy values, a fixed target is paid exactly M - ceil(M/101) times what the draw alone pays |
| Fairness.HouseBoundWithRoll | packages/contracts/src/fairness.ts:13-69 | over a full period of 101 rolls the payouts are exactly a hundred times those of the draw alone, so at most 100 * 99.99% of the 101 stakes made per entropy value |
| Roulette.WinningPocketsOnTheWheel | packages/contracts/src/roulette.ts:122-149 | how many of the 37 pockets each valid selection wins on |
| Roulette.SelectionsAsListed | packages/contracts/src/roulette.ts:80-108 | which selections are taken, and exactly which error refuses each of the others |
| Roulette.EverySelectionPaysThirtySix | packages/contracts/src/roulette.ts:60-70 | for each valid selection, odds times winning pockets is exactly 36.00x |
| Roulette.EdgeIsExactlyTheZero | packages/contracts/src/roulette.ts:60-70 | for every list of valid bets with any stakes, total payout over the 37 pockets is exactly 36 times the total staked |
| Roulette.LandingCount | packages/contracts/src/roulette.ts:163-168 | how many of the draws 0..M-1 land on a pocket |
| Roulette.PocketsDifferByAtMostOne | packages/contracts/src/roulette.ts:156-168 | among equally counted draws 0..M-1, any two pockets' counts differ by at most one |
| Chain.VerifyChainProof | packages/contracts/src/chain.ts:38-56 | the loop hashes the seed exactly index times; valid iff the result has the length of the genesis and differs from it at most in the case of letters; a non-positive index is refused |
| Chain.FoldingComparesLetters | packages/contracts/src/chain.ts:51-52 | folding two digests makes them equal iff they agree letter by letter up to ASCII case |
| Chain.DeriveChainSeed | packages/contracts/src/chain.ts:65-80 | the loop is the terminal seed hashed length - index times; an index outside the chain is refused |
| Chain.SeedsLeadToGenesis | src/rounds/fairness/hash-chain-fairness.provider.ts:103-109 | every seed of a chain hashes to the one genesis in as many steps as its index, and seed i to seed i - 1 |
| Chain.RoundTrip | packages/contracts/src/chain.ts:30-80 | for every hash, terminal seed, length and index, the derived seed verifies against the created genesis in exactly index steps |
| Chain.ForgeryIsACollision | packages/contracts/src/chain.ts:30-56 | any other seed that verifies at the same index exhibits a collision of the hash |
| Chain.AcceptedForgeryIsACollision | packages/contracts/src/chain.ts:27-56 | for hashes written in lower case, a seed accepted against the genesis of a created chain is the committed one or exhibits a collision |
| Chain.SeedsAreRevealedInOrder | src/rounds/fairness/hash-chain-fairness.provider.ts:43-53 | the first nonce of a chain reveals the seed that hashes to the genesis, each later one the seed that hashes to the one before, and each is accepted at its place |
| Chain.ChainTable.Latest | src/rounds/fairness/hash-chain-fairness.provider.ts:74-79 | the row with the greatest first nonce not above the one asked for, or none |
| Chain.ChainTable.ChainFor | src/rounds/fairness/hash-chain-fairness.provider.ts:73-132 | the answer covers the nonce; a chain is added iff the latest one does not |
| Chain.DisjointIffNothingStartsInside | migrations/1757900005000_fairness-chain.sql:36-45 | adding a chain keeps the intervals disjoint iff no stored chain starts inside the new interval |
| Chain.DescendingNonceOverlaps | migrations/1757900005000_fairness-chain.sql:44-45 | two requests in descending order produce overlapping chains that the unique index accepts |
| Chain.SuccessionNeverOverlaps | src/rounds/fairness/hash-chain-fairness.provider.ts:73-132 | over every ascending run of requests, with any positive lengths, the chains cover pairwise disjoint nonce intervals |
| Chain.EveryNonceStaysServed | src/rounds/fairness/hash-chain-fairness.provider.ts:73-91 | a nonce once asked for stays covered by the latest chain that starts by it |
| Chain.AnswersAreStable | src/rounds/fairness/hash-chain-fairness.provider.ts:73-91 | adding a chain at a later nonce never changes which chain an earlier nonce draws from |
| Chain.PositionsAreUnique | src/rounds/fairness/hash-chain-fairness.provider.ts:43-57 | every position is within 1..length, and two nonces share chain and position iff they are one nonce |
| Paging.NewestIsExact | src/ledger/ledger.service.ts:265-288 | the query finds exactly the matching entries before the cursor, in descending id order |
| Paging.PageIsTheNewest | src/ledger/ledger.service.ts:259-305 | a page is the newest entries of the account, type and cursor, as many as asked for between 1 and 200; a cursor is given iff entries remain, all below it |
| Paging.AppendsAreInvisible | src/ledger/ledger.service.ts:281-283 | entries appended after a cursor was given are never seen past it |
| Paging.PagesForIsTheCeiling | src/ledger/ledger.service.ts:259-305 | the number of pages is max(1, ceil(n / limit)) with the clamped limit |
| Paging.FollowingReturnsTheFirstSnapshot | src/ledger/ledger.service.ts:259-305 | following cursors to null over any growing table returns each entry matching at the first call exactly once, newest first, in that many pages |
| RefreshTokens.TokenTable.IssueRefreshToken | src/auth/tokens.service.ts:55-82 | adds one unspent, unrevoked row of this user, family and expiry, and touches no other |
| RefreshTokens.TokenTable.RevokeAll | src/auth/tokens.service.ts:91-99 | marks every row of the family revoked and changes nothing else |
| RefreshTokens.TokenTable.SignIn | src/auth/auth.service.ts:146-152 | starts a new family with one token of this user |
| RefreshTokens.TokenTable.Rotate | src/auth/auth.service.ts:163-240 | accepted iff signed, stored, unrevoked, unexpired, unspent and the user welcome; then the token is spent and its successor has the same user and family, the given expiry, unspent and unrevoked; a spent one revokes the family; an unwelcome user only spends it; anything else changes nothing |
| RefreshTokens.TokenTable.SignOut | src/auth/auth.service.ts:243-255 | revokes the presented token's family, if it is known |
| RefreshTokens.RunsKeepFamilies | src/auth/auth.service.ts:163-255 | in every run all tokens of a family but its newest are spent |
| RefreshTokens.TokensBelongToTheLogin | src/auth/auth.service.ts:146-235 | in every run each token belongs to the user whose login started its family |
| RefreshTokens.FamiliesHaveOneOwner | src/auth/auth.service.ts:222-235 | in every run all tokens of a family belong to one user |
| RefreshTokens.AtMostOneUsablePerFamily | src/auth/auth.service.ts:155-240 | in every run each family has at most one unspent, unrevoked token |
| RefreshTokens.AcceptedAtMostOnce | src/auth/auth.service.ts:185-235 | no token is accepted twice in any run |
| RefreshTokens.RevokedFamilyIsNeverAccepted | src/auth/auth.service.ts:174-205 | once a spent unexpired token is presented, or the family logged out, every later token of the family is refused and changes nothing |
| RefreshTokens.SpentTokenRevokesIff | src/auth/auth.service.ts:193-205 | a spent token revokes exactly its family iff it is signed, unrevoked and unexpired, and is never accepted |
| Ledger.BalancedJournalSumsToZero | src/ledger/ledger.service.ts:315-322 | a journal of balanced transactions sums to zero |
| Ledger.SortedIsAPermutation | src/ledger/ledger.service.ts:89-97 | sorting the postings yields a permutation in account order with the same net per account |
| Ledger.PostedAddsNet | src/ledger/ledger.service.ts:97-115 | a successful post moves every balance by exactly its net and no other |
| Ledger.PostedNeverOverdraws | migrations/1757900000000_initial-ledger.sql:189-216 | a successful post touches only known accounts and leaves ESCROW and every wallet it touches at zero or more |
| Ledger.CoveredPostingsApply | migrations/1757900000000_initial-ledger.sql:197-216 | postings that move each account one way pass the non-negative trigger whenever the final balances do |
| Tables.GroupingKeepsTheSum | src/ledger/ledger.service.ts:328-354 | an account's entries sum to the same in journal order and grouped by the bet or user they reference |
| Tables.EntriesAreTheClosedForm | src/ledger/ledger.service.ts:328-354 | an account's entries sum to what the bet rows hold on it plus the grants |
| Tables.EscrowIsNonNegative | migrations/1757900000000_initial-ledger.sql:189-216 | ESCROW is never negative, and zero when no bet is active |
| Operations.SettlementsAreBalanced | src/rounds/rounds.service.ts:331-365 | the postings of every cash-out, win, loss and refund satisfy the balance rule, zero profit included |
| Operations.ApplyKeepsConsistent | src/ledger/ledger.service.ts:49-122 | writes whose journal fits their row changes keep every invariant of the tables |
| Operations.BatchKeepsConsistent | src/rounds/round-engine.service.ts:354-378 | settling any batch of active bets, each once, keeps every invariant of the tables |
| Operations.RegisterKeeps | src/auth/auth.service.ts:84-118 | registering a new user with a grant keeps every invariant |
| Operations.PlaceKeeps | src/rounds/rounds.service.ts:166-225 | placing an affordable bet on an open round keeps every invariant |
| Operations.CashOutKeeps | src/rounds/rounds.service.ts:324-374 | cashing out an active bet at what the curve shows at an instant, below the crash point, keeps every invariant |
| Operations.ConcludeKeeps | src/rounds/round-engine.service.ts:339-435 | settling a resolved round or voiding an unresolved one, with all its active bets, keeps every invariant |
| Operations.AdvanceKeeps | src/rounds/round-engine.service.ts:260-329 | locking, starting and resolving keep every invariant |
| Operations.OpenKeeps | src/rounds/round-engine.service.ts:191-251 | opening a round while none of its game is live keeps every invariant |
| Rows.PricingAsListed | src/rounds/rounds.service.ts:421-455 | a selection is priced exactly as the odds table lists it for the game, and any other is refused as invalid |
| Rows.WinsAsListed | packages/contracts/src/roulette.ts:115-149 | every selection wins on exactly the listed pockets |
| Rows.DecisionAsListed | src/rounds/round-engine.service.ts:359-549 | the row a settlement or void leaves of an active bet, column by column: refund, loss, or win at the stored odds rounded down |
| Rows.PostingAsListed | src/rounds/round-engine.service.ts:437-632 | the one transaction posted for each decided bet, posting by posting |
| Rows.DoesIffInRows | src/rounds/rounds.service.ts:144-408 | each of the six operations is legal and leads from one consistent state of the tables to another exactly when the columns, postings and balances of the two say so themselves, a cash-out at 10000 * 1.01^n for the n tenths of a second since the start |
| InterleavingRely.TxSurvives | src/rounds/rounds.service.ts:127-263 | all that a transaction knows at its current statement stays true whatever others may commit while it holds its locks |
| InterleavingPosting.PostOneSucceeds | src/ledger/ledger.service.ts:97-115 | applying the next posting succeeds and loses no update, when its balance is covered |
| InterleavingPosting.EscrowCoversBatch | src/rounds/round-engine.service.ts:354-378 | ESCROW covers every settlement posted so far, because the rows it settles are the active ones |
| InterleavingPosting.PayoutHeadCovered | migrations/1757900000000_initial-ledger.sql:197-216 | no statement of a pay-out can trip the non-negative trigger |
| InterleavingPlace.PlaceHeadCovered | src/ledger/ledger.service.ts:149-194 | under the wallet lock the debit of a placement cannot trip the non-negative trigger |
| InterleavingPlace.PlaceMove | src/rounds/rounds.service.ts:144-263 | every statement of a placement, from any safe state, keeps what is known about it, or answers properly |
| InterleavingPayouts.QuoteFits | src/rounds/rounds.service.ts:300-333 | a price quoted from the unlocked round read and the later clock is the price of that instant on the stored round, and the bet may be cashed out at it |
| InterleavingPayouts.PriceWasShown | src/rounds/rounds.service.ts:270-285 | a price quoted at an instant that has come is one the curve has shown since the round started |
| InterleavingPayouts.CashMove | src/rounds/rounds.service.ts:286-408 | every statement of a cash-out keeps what is known about it, or answers properly |
| InterleavingConclude.SettlingMatches | src/rounds/round-engine.service.ts:437-450 | the conditional update of a bet under settlement or void always matches its row |
| InterleavingConclude.DecidesOne | src/rounds/round-engine.service.ts:505-632 | deciding one more bet writes its row and posts its one settlement, never an unmatched one |
| InterleavingConclude.ConcludeMove | src/rounds/round-engine.service.ts:339-435 | every statement of a settlement or void keeps what is known about it, or answers properly |
| InterleavingMoves.CommitIsSteady | src/rounds/rounds.service.ts:166-180 | a commit changes no row that another transaction has locked |
| InterleavingMoves.DrainedOverwriteIsApply | src/ledger/ledger.service.ts:97-115 | once its postings are applied, overwriting the rows is exactly adding its entries to the committed balances |
| InterleavingSafety.InitialIsSafe | migrations/1757900000000_initial-ledger.sql:223-226 | the state after the migrations is safe |
| InterleavingSafety.StepKeepsSafe | src/rounds/round-engine.service.ts:339-435 | any statement of any transaction, a new one, an abort or passing time keeps the system safe |
| InterleavingSafety.RunsStaySafe | src/rounds/round-engine.service.ts:339-435 | every interleaving of any transactions keeps the system safe |
| Atomicity.EffectKeepsConsistent | src/ledger/ledger.service.ts:39-58 | every legal operation keeps every invariant of the tables |
| Atomicity.CommitIsOneOperation | src/rounds/rounds.service.ts:144-263 | whatever a transaction commits is exactly one whole operation, the one it was asked for, legal on the tables as they are at that moment; a cash-out is priced by the curve at an instant not after the clock |
| Atomicity.RunsRefineOperations | src/rounds/rounds.service.ts:127-408 | in every interleaving the committed tables are the result of some sequence of whole legal operations, each what one request asked for at the time it committed; no request has two, each of them succeeded, and every request answered COMMITTED has one |
| Refusals.RefusalsAreTrue | src/rounds/rounds.service.ts:144-455 | in every interleaving a refused request is given a reason that holds of the tables and the clock at that statement |
| Refusals.NoOpsAreTrue | src/rounds/round-engine.service.ts:221-410 | a request that does nothing had nothing to do: its round is missing, not in the status asked for, concluded, or another is live |
| Realised.LegalIsRealised | src/rounds/rounds.service.ts:144-408 | the converse: from any safe state without locks, every legal operation that can be asked for now or later is what some run of statements commits |
| Realised.HistoriesAreRealised | src/rounds/round-engine.service.ts:191-435 | a whole schedulable history of operations is realised by one run of statements |
| Atomicity.HistoryOnlyMovesForward | src/rounds/round-engine.service.ts:260-435 | over any sequence of operations rounds only move along their lifecycle, settled bets and outcomes never change, the journal is append-only, bets join only open rounds |
| Atomicity.RunsOnlyMoveForward | src/rounds/rounds.service.ts:166-186 | the same over every interleaving of statements |
| Guarantees.EachBetIsSettledExactlyOnce | src/rounds/round-engine.service.ts:349-378 | in every reachable state a bet has one BET_PLACED, no settlement while active, and exactly one of the kind its status names after; never both paid and written off |
| Guarantees.BalancesAreAClosedForm | src/ledger/ledger.service.ts:315-361 | ESCROW is the active stakes, HOUSE lost stakes less winners' profit, a wallet its grant less stakes plus payouts, MINT minus the grants |
| Guarantees.BooksAlwaysBalance | src/ledger/ledger.service.ts:307-354 | the global sum is zero, no balance has drifted, no wallet and not ESCROW is negative |
| Guarantees.AllBalancesSumToZero | src/ledger/ledger.service.ts:307-322 | the cached balances of all accounts together are zero |
| Guarantees.ConcludedRoundsHaveNoActiveBets | src/rounds/round-engine.service.ts:339-435 | a settled or voided round has no active bet; lost bets are in settled rounds, refunded ones in voided rounds |
| Guarantees.WinsAreJustified | src/rounds/rounds.service.ts:270-333 | every crash win was paid at what the curve shows at a tick that has passed since the round started, below the crash point; every roulette win on a winning selection at the stored odds; each exactly its floored price |
| Guarantees.EveryCrashWinIsHouseBounded | packages/contracts/src/fairness.ts:47-69 | at the price of every crash win in every reachable state, the payouts over all draws return at most 99.99% of the stakes |
| Guarantees.EscrowEmptiesOut | test/rounds.e2e-spec.ts:355-356 | ESCROW is zero once every round is settled or voided |
| Guarantees.OneLiveRoundPerGame | migrations/1757900007000_roulette.sql:31-36 | at most one round per game is open, locked or running |
| Guarantees.GuardsNeverRefuse | src/ledger/ledger.service.ts:133-171 | no trigger, CHECK or index is ever what refuses a bet, cash-out, settlement or refund, except a void of a round that has resolved |
| Guarantees.SettlementsNeverFail | src/rounds/round-engine.service.ts:505-527 | when thirty-six times the stake limit is a safe integer, no settlement is ever refused, in any interleaving |
| Guarantees.CashOutsArePriceable | src/rounds/rounds.service.ts:331-333 | when the stake limit at the top of the curve is a safe integer, no cash-out is refused for its price |
| Guarantees.PlacementIsIdempotent | src/rounds/rounds.service.ts:249-263 | all successful answers under one user and key are one bet, debited once |
| Guarantees.PaidCashOutIsWon | src/rounds/rounds.service.ts:296-298 | a cash-out that answered has been paid exactly once, at least its stake, and was not written off |
| Burst.ExactlyWhatTheWalletCovers | src/ledger/ledger.service.ts:140-147 | bets of one stake on one wallet, on any open rounds, begun at any time and beside any transactions that leave the wallet and the rounds alone: exactly min(N, B div S) commit, the rest are refused for funds, the wallet holds the remainder |
| Burst.HarmlessKeeps | src/rounds/rounds.service.ts:196-225 | an operation asked for by anyone else, or on another round, leaves the wallet, the rounds and the keys as they were |
| Burst.FreshRequestsAreOngoing | src/rounds/rounds.service.ts:144-164 | requests just begun under unused keys, beside harmless transactions, start such a burst with the wallet's balance as B |
| Deadlock.WaitsClimb | src/ledger/ledger.service.ts:89-97 | a blocked lock holder waits further along the lock order, unless a pay-out waits for a wallet a placement holds |
| Deadlock.DeadlockIff | src/ledger/ledger.service.ts:89-97 | transactions wait in a circle iff a pay-out holding ESCROW waits for the wallet of a placement about to lock ESCROW |
| Deadlock.SeparateIsDeadlockFree | src/ledger/ledger.service.ts:89-97 | nothing deadlocks as long as no user has a placement in flight while a cash-out of theirs, or the closing of another round they have an active bet in, is |
| Deadlock.UnmixedIsDeadlockFree | src/ledger/ledger.service.ts:89-97 | any mix of cash-outs, settlements and voids, and any set of placements, never deadlocks |
| Deadlock.SomeoneCanAlwaysRun | src/rounds/rounds.service.ts:141-142 | without that clash, some unfinished transaction can always run |
| Draining.EntangledForever | src/ledger/ledger.service.ts:89-97 | once a pay-out holding ESCROW owes a wallet that a placement bound for ESCROW holds, no run of anything that aborts neither finishes either |
| Draining.DrainsIff | src/rounds/rounds.service.ts:127-408 | some schedule of the statements in flight finishes them all, without an abort, iff there is no such pair |
| Draining.SeparateCanDrain | src/rounds/rounds.service.ts:141-142 | everything in flight can finish as long as no user has a placement in flight while a pay-out crediting them on another round is |
| DeadlockReached.PlacementMeetsPayout | src/rounds/rounds.service.ts:144-408 | from any safe state without locks in which a user may place a bet while a cash-out of theirs, or a settlement or void that pays them on another round, is due now or later, some schedule deadlocks the two requests |
| DeadlockReached.DoomedBeforeTheCycle | src/rounds/rounds.service.ts:144-408 | from the same states some schedule reaches a state without a cycle that no schedule finishes |
| DeadlockReached.NoCycleIsNotEnough | src/ledger/ledger.service.ts:91-96 | a reachable state without a cycle of waits that no schedule of what is in flight can finish |
| DeadlockReached.TheCycleCanForm | src/ledger/ledger.service.ts:91-96 | a reachable state, by statements from the empty tables, in which two transactions wait for each other |
| Progress.TickComesCloser | src/rounds/round-engine.service.ts:116-173 | every tick on a later clock that does not fail strictly lowers the distance to a concluded round |
| Progress.EveryRoundConcludes | src/rounds/round-engine.service.ts:116-173 | that many ticks without failure settle or void any round, however they are spaced |
| Progress.TimelyTicksNeverVoid | src/rounds/round-engine.service.ts:150-161 | ticks less than the grace period apart never void a round |
| Progress.TimelyTicksSettle | src/rounds/round-engine.service.ts:116-173 | under such ticks an opened round ends settled |
| Progress.EveryRoundOfTheTableConcludes | src/rounds/round-engine.service.ts:127-173 | over the whole table, enough ticks of a game conclude every round of it that existed at the start, newest first, the sum of distances falling with each tick |
| Progress.TimelyTicksSettleTheNewestRound | src/rounds/round-engine.service.ts:127-173 | on the table too, the newest open round settles under timely ticks and is not voided |
| Progress.FrontRowRuns | src/rounds/round-engine.service.ts:127-135 | over a run of ticks the newest unconcluded round goes through exactly its own ticks |
| Progress.TickRestsIffCashOutIsOpen | src/rounds/round-engine.service.ts:138-165 | on a running crash round the engine rests exactly while a cash-out would still be priced |
| Progress.TicksAsListed | src/rounds/round-engine.service.ts:138-173 | the tick on a row, column by column: an open round locks from its time on; a running one rests before its end, resolves from then on, and is voided from the end of the grace period on |
| Services.TickRestsIffCashOutIsInTime | src/rounds/round-engine.service.ts:138-165 | while a bet is in flight, a tick leaves its round alone exactly when a cash-out at that time is early enough |
| Services.LateRoundsAreRefunded | src/rounds/round-engine.service.ts:154-161 | a tick past the grace period voids the round, reveals its seed, refunds each active bet its stake, and changes no other bet |
| Bookkeeping.NextSettlementLands | src/rounds/round-engine.service.ts:359-367 | posting the next settlement of a batch succeeds and lands where the larger batch does |
| Services.Platform.constructor | migrations/1757900000000_initial-ledger.sql:223-226 | starts with the three system accounts at zero |
| Services.Platform.Post | src/ledger/ledger.service.ts:39-122 | the loop over sorted postings moves every balance by its net or fails as specified: unbalanced iff too few, a zero or a sum other than zero; what it touches exists and is not overdrawn |
| Services.Platform.Register | src/auth/auth.service.ts:84-128 | a new user starts with exactly the grant; an existing one, or an unpostable grant, changes nothing |
| Services.Platform.FindByIdempotencyKey | src/rounds/rounds.service.ts:468-485 | finds the bet under a key, or there is none |
| Services.Platform.PlaceBet | src/rounds/rounds.service.ts:144-263 | succeeds iff replayed or allowed by stake, round, selection, user and funds, each told in columns; inserts exactly the bet asked for and moves its stake; each refusal is given exactly when its reason is the first that holds |
| Services.Platform.CashOut | src/rounds/rounds.service.ts:286-408 | succeeds iff already won, or in flight with the curve below the crash point and a safe price; then the bet is won at what the curve shows and paid the floor, and nothing else changes; each refusal is given exactly when its reason is the first that holds |
| Services.Platform.WriteDecided | src/rounds/round-engine.service.ts:611-632 | the conditional update followed by an unconditional posting, as the code has it |
| Services.Platform.ActiveBets | src/rounds/round-engine.service.ts:352-358 | lists exactly the round's active bets, each once |
| Services.Platform.DecideAll | src/rounds/round-engine.service.ts:359-367 | decides all of them, iff none has an unsafe payout |
| Services.Platform.SettleRound | src/rounds/round-engine.service.ts:339-381 | settles iff the round is resolved and every winning bet on it is payable in safe integers, deciding each active bet and stamping the round as listed; never fails when thirty-six times the stake limit is safe |
| Services.Platform.VoidRound | src/rounds/round-engine.service.ts:397-435 | refunds every active bet of a live round; a resolved round is refused by its CHECK |
| Services.Platform.Conclude | src/rounds/round-engine.service.ts:339-435 | what both share: one closing operation, or everything restored; for settling, iff every winning bet is payable, for voiding iff the round is live |
| Services.Platform.Transition | src/rounds/round-engine.service.ts:260-329 | one step along the lifecycle, iff the round is in the expected status; a repeated call changes nothing |
| Services.Platform.Newest | src/rounds/round-engine.service.ts:128-135 | a matching round with the highest nonce, or there is none |
| Services.Platform.PeekNextNonce | src/rounds/round-engine.service.ts:253-258 | one past the highest nonce, or 1 |
| Services.Platform.InsertRound | src/rounds/round-engine.service.ts:221-250 | the insert uses up one nonce in any case, throws on a failed check, and opens iff no round of the game is live |
| Services.Platform.OpenRoundIfDue | src/rounds/round-engine.service.ts:191-258 | opens iff the intermission is over, no round of the game is live and the drawn row passes its checks; the sequence advances iff an insert is attempted |
| Services.Platform.TickGame | src/rounds/round-engine.service.ts:127-173 | the newest unconcluded round makes exactly the transition due by its columns, failing iff it is a settlement that cannot be paid; with none, a round opens iff the intermission is over and the draw passes; each tick that does not fail is a tick of the table |
| Services.LimitMakesAffordable | src/rounds/round-engine.service.ts:524-527 | thirty-six times the stake limit being safe makes every winning bet of every round payable |
| Services.BurnANonce | migrations/1757900002000_rounds-and-bets.sql:19-20 | three calls on a fresh platform after which a row with nonce 3 carries the outcome drawn for nonce 2 |
| Nonces.DrawnIsGivenIff | src/rounds/round-engine.service.ts:207-258 | over any run of attempts, the outcome is drawn for the row's own nonce iff no insert was refused since the last accepted one |
| Nonces.DrawnNoncesRise | src/rounds/round-engine.service.ts:207-258 | drawn nonces never fall, and rise strictly past every opened round |
| Nonces.EngineChainsNeverOverlap | src/rounds/fairness/hash-chain-fairness.provider.ts:73-132 | so the engine's requests ascend and the chains it draws from are pairwise disjoint |
| Nonces.OpenedRoundsNeverShareAPosition | migrations/1757900005000_fairness-chain.sql:54-58 | no two opened rounds are drawn from one position of one chain |

## Left out

- NestJS wiring, controllers, validation of requests, throttling, health and admin views, display names.
- The WebSocket gateway and `pg_notify`: events ride on the transaction that publishes them and change no money.
- SHA-256, HMAC, argon2, JWT and random bytes: the hash is any total function, identifiers are fresh numbers, a draw is a
  parameter. Nothing is claimed about inverting a hash; binding is stated as exhibiting a collision.
- Hex parsing in `crashPointFromHash` and `roulettePocketFromHash`: the model starts from the parsed numbers. The draw is
  exact integer arithmetic, while the code divides doubles and 100 * 2^52 - h exceeds 2^53, so the code may round before it floors.
- 64-bit column widths, and reads of balances beyond 2^53: balances are unbounded integers. The safe-integer check on payouts is
  modelled.
- Letters beyond ASCII: `toLowerCase` folds them too, and `Chain.Lower` does not. Digests are hexadecimal.
- The unique e-mail index: a user is a number, and two registrations of one user wait on that user's wallet row. Ids of bets and
  rounds are numbers handed out in order.
- The chain columns of a round row and their unique index. `Nonces.OpenedRoundsNeverShareAPosition` shows that one engine
  never opens two rounds on one position, so the index refuses nothing.
- Locks taken by foreign keys, and the wait on a unique index inside the single INSERT that opens a round: that insert
  decides at once against the committed rows.
- Full serializability: `cashOut` reads the round without a lock, so the model judges it at that read, as the code does. A cash-out
  may therefore commit after its round has resolved, which is why `Realised.LegalIsRealised` asks a pay-out's round to be running.
- Postgres itself: READ COMMITTED with a re-read after a lock wait, atomic commit, and entry ids that grow in commit order are
  assumed.
- Statement-level interleaving of `refresh` and `revokeFamily`: each is one step, because only the presented token's row is
  locked.
- Fairness of scheduling: `Draining.DrainsIff` says that some schedule finishes everything, not that the scheduler takes it.
  Deadlock detection is the abort of one of the two; nothing says that it comes.
- Leader election, the engine's timer and its `ticking` flag: settlement is proved safe with any number of engines.
- `describeSelection`, `creditsToMinorUnits`, `formatBasisPoints` and other display helpers, and the unused commit-reveal provider.
- Progress.EveryRoundConcludes, and the other results on ticks: about ticks that do not fail. `Services.Platform.TickGame` says
  which fail: exactly the settlements with a payout beyond the safe integers, and none when thirty-six times the stake limit is safe.
  A round whose settlement keeps failing stays RESOLVED.
- Burst.ExactlyWhatTheWalletCovers: assumes that no request is aborted from outside, since an aborted one counts neither as committed nor
  as refused.
- Paging.FollowingReturnsTheFirstSnapshot: entries visible at a page are those appended so far; an id that becomes visible
  after a larger one is excluded by the assumption on ids above.
