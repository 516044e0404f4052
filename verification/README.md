# The order-book exchange of tx-chain, verified

A Dafny model of the decentralised exchange of tx-chain (module `x/dex`) and of
what it stands on: order-preserving store keys, exact rational arithmetic, the
exchange's ledgers in the asset module, the funds its orders are paid from, and the
delay queue that expires orders.

`dafny verify dfyconfig.toml` checks the whole project.

## How the project is built

The files form layers; each layer proves what the next one uses.

1. Numbers and bytes: `Arithmetic`, `Rational`, `Decimal`, `Ticks`, `Bytes`,
   `StoreKeys`, `Price`, `Keys`. Comparing keys byte by byte is comparing prices
   exactly and then ages.
2. Reading the book: `SortedLists`, `Types`, `Iterator`, `Priority`, `Finder`. The
   stateful iterators and the finder that merges a book with its inverse book return
   exactly the filtered and sorted list of makers.
3. Matching: `Amounts`, `Matching`, `Actions`, `Orders`, `Engine`, `BookDepth`. One
   match trades the largest amounts at the maker's price that both sides have; the
   engine's loop is a fold of it, and the actions it collects add up to what the fills
   say.
4. The state machine: `Exchange` says what placing, cancelling, expiring, changes of
   parameters and money from outside do to the open orders and to the funds, and what
   every run keeps: the invariant and solvency. `Acceptance` and `Effects` say in plain
   terms, of fields, fills, funds and comparisons alone, which orders are admitted and
   what each operation does. `Guarantees` says what that means for traders, `Lifetimes`
   how long an order stays in the book, `Reserves` when an order's reserve is covered,
   and `Witnesses` gives concrete reachable states for what is not guaranteed.
5. The store: `Ledgers`, `Store`, `Settlement`, `KeeperFacts`, `DexKeeper`, `Delay`,
   `Genesis`, `ByteScans`. The keeper is a class over a store of sixteen largely
   redundant parts (parameters, books and their data, records, order data, IDs, counters,
   denom entries, reserved IDs, ledgers, funds, scheduled expiries) and a log of bank
   transfers. Its methods are shown to do to the store what the state machine does to
   the open orders and funds, for any sequence of messages and blocks. `ByteScans`
   ties the typed scans of the store to scans of its byte keys.

The main results:

- `DexKeeper.Keeper.Execute`: any run of the keeper refines the state machine, so every
  index, counter and ledger is at all times what the open orders determine, and
  transfers are exactly what the fills demand.
- `Acceptance.AcceptedIff`, `Effects.PlaceSucceedsIff`, `Effects.PlaceDoes`,
  `Effects.FillsAreLargest` and `Effects.StopsOnlyWhenDone`: which placements are
  admitted and succeed, and exactly what they trade, pay and leave in the book, for every
  type and time in force.
- `Exchange.RunKeepsInv` and `Exchange.RunKeepsSolvent`: no run crosses the book, loses
  an order ID, or leaves an account unable to pay what its open orders owe.
- `Lifetimes.OpenUntilRemoved`: an order leaves the book exactly by its owner's cancel,
  a cancel by denom, its expiry, or a fill that closes it.
- `Reserves.BackedThroughoutIff`: no account ever has more locked than it has, all
  through a run, exactly if each placement meets a condition on the order, the book and
  the free funds before it.
- `Guarantees.NobodyIsPassedOver`, `Guarantees.LimitIsRespected` and the other lemmas
  of that module.
- `Genesis.InitGenesis`: an export can be started from and restores the store.

Runs (`Feasible`) may hold any number of cancellations, blocks, parameter changes and
refused placements. Only a placement that is accepted needs a free sequence number, and
two free book IDs if its pair is new; `Exchange.FewPlacementsAreFeasible` bounds what a
run can use.

## Where the code and its documentation disagree

The model follows the code.

- A good-til time is cut to whole seconds when the expiry is scheduled
  (x/delay/types/keys.go:30-43), so an order can be gone before its time.
  `Witnesses.GoneBeforeItsTime` is an order good til 1.5 s, accepted at 1.2 s and gone
  in a block at 1.3 s. `Lifetimes.ExpiresEarlyIffFraction` proves that the documented
  behaviour (x/dex/spec/README.md:196-197) holds for an order in the book exactly if its
  time is a whole second.
- An order with a height is cancelled in the block after that height
  (x/delay/keeper/keeper.go:263), where the documentation says once the height is
  reached (x/dex/spec/README.md:193-194). `Witnesses.OpenInTheBlockOfItsHeight` shows
  it; `Lifetimes.HeightDecides` proves that an order left alone is in the book exactly
  if no block was above its height.
- If a good-til has a height and a time, only the height is scheduled
  (x/dex/keeper/good_til.go:37-51). `Witnesses.OpenPastItsTime` shows an order open
  eight seconds past its time; `Lifetimes.HeightDecides` and `Lifetimes.TimeDecides`
  prove that the time counts exactly if no height is set.
- The exponent of the quantity step is computed in 32-bit arithmetic
  (x/dex/keeper/quantity_step.go:13-28). `Ticks.QuantityStepWraps` gives a valid
  parameter for which it wraps; `Ticks.QuantityStepFormula` proves that the stated
  formula holds exactly if the subtraction does not wrap.
- The comment on the rounded-up logarithm (pkg/math/big/rat.go:53-54) describes a
  largest power below the value; the code computes the smallest power that is not
  below it, which is what the price tick needs.
  `Ticks.RoundUpOfTwo` gives a value for which they differ;
  `Ticks.RoundUpIsFloorIffPowerOfTen` proves that they agree exactly for powers of ten.
- The order-book query cuts the exponent of the price tick to 8 bits
  (x/dex/keeper/keeper.go:208), while orders are checked against the exact tick.
  `Witnesses.ReportedTickWraps` gives a valid parameter for which it reports another
  tick; `Price.ReportedTickIsExactIff` proves that what it reports is right exactly if
  the exponent fits in 8 bits.

The check of what a placement spends does not include the order reserve
(x/asset/ft/keeper/keeper_dex.go:407-435). `Witnesses.ReserveExceedsFunds` is a
reachable placement after which an account has more locked than it has.
`Reserves.KeepsBackedIffReserveFits` gives the exact condition before the placement: if
the order will rest and the reserve is in the denom it spends, the price of all
acceptable makers' lots, what the rest locks and the reserve must be free, counting what
comes back from the creator's own makers. For a sell, and for a buy that meets no better
price, with no maker of its creator's own, this is that the whole order and the reserve
are free (`Reserves.KeepsBackedIffFullyCovered`). That is enough for every order
(`Reserves.FullyCoveredKeepsBacked`) and over every run
(`Reserves.CoveredOrdersStayBacked`), and an order that meets nobody needs nothing more
(`Reserves.UnmatchedKeepsBacked`). What orders have to pay is covered all the same
(`Guarantees.OpenOrdersAreFunded`, `Guarantees.EveryoneCanPay`).

## What the model assumes

- Accounts are identified by their account numbers; address parsing and lookup never fail.
- The key of an order book, a hash of two denoms, is injective.
- Block times are not before 1970.
- Funds are bank balances less what vesting locks in them. Outside the exchange they
  may grow at any time, and shrink only by what no order locks, as the asset module
  checks on every send (x/asset/ft/keeper/before_send.go:79-84).
- The asset module's verdict on the features, freezing, limits and extension contracts
  of the denoms of a placement is one input, `assetsAdmit`; the reference amounts, the
  existence of denoms and the spendable balance are inputs as well. Which denoms have
  their expected amounts recorded does not change.
- Iterating a store while deleting from it visits what was there at the start.
- A message that fails leaves no trace, as the transaction is reverted.

## Model

| member | source | states |
|---|---|---|
| Ticks.Log10RoundUpIsCeilLog10 | pkg/math/big/rat.go:55-71 | for every positive rational the digit-count computation returns k with 10^(k-1) < v <= 10^k |
| Ticks.CeilLog10Unique | pkg/math/big/rat.go:55-71 | only one k satisfies that |
| Ticks.RoundUpIsFloorIffPowerOfTen | pkg/math/big/rat.go:53-71 | the computed exponent is that of the largest power of ten not above the value, as the comment has it, exactly if the value is a power of ten |
| Ticks.RoundUpOfTwo | pkg/math/big/rat.go:53-71 | for two the code gives 1, the comment 0 |
| Ticks.PriceTickFormula | x/dex/keeper/price_tick.go:34-43 | the tick exponent is the parameter plus ceil(log10) of the quotient of the reference amounts, and scaling both amounts alike changes nothing |
| Ticks.PriceTickValidIffMultiple | x/dex/keeper/price_tick.go:28-32 | the check accepts a price exactly if it is an integer multiple of the tick |
| Ticks.PriceTickValidIffDivides | x/dex/keeper/price_tick.go:28-43 | for a tick of 10^e the check accepts a price exactly if 10^e divides it |
| Ticks.QuantityStepFormula | x/dex/keeper/quantity_step.go:13-44 | the step exponent is the clamped sum of parameter and ceil(log10), exactly if the 32-bit subtraction of the decimal precision does not wrap |
| Ticks.QuantityStepValue | x/dex/keeper/quantity_step.go:13-44 | the step is the power of ten of its exponent, spelled out whether or not the subtraction wraps |
| Ticks.QuantityStepValidIffMultiple | x/dex/keeper/quantity_step.go:30-33 | the check accepts exactly the multiples of the step |
| Ticks.QuantityStepWraps | x/dex/keeper/quantity_step.go:13-28 | the least parameter, with a reference amount of one: the formula gives exponent 0, the code 2^31 |
| Bytes.BigEndianOrder | pkg/store/ordered_bytes.go:52-75 | byte order of the fixed-width encodings is numeric order |
| Bytes.BigEndianRoundTrip | pkg/store/ordered_bytes.go:52-75 | reading an encoded number back gives the number |
| Bytes.ReadUint64Appended | pkg/store/ordered_bytes.go:65-75 | reading consumes exactly the encoded number and returns the rest |
| StoreKeys.JoinKeysWithLength | pkg/store/key.go:20-36 | the loop computes the length-prefixed join, and fails exactly on a section that is empty or longer than 255 bytes |
| StoreKeys.ParseLengthPrefixedKeys | pkg/store/key.go:39-61 | the loop computes the parse of length-prefixed sections, or fails on an empty key or a section that is cut short |
| StoreKeys.ParseJoin | pkg/store/key.go:20-61 | parsing undoes joining one or more sections |
| StoreKeys.JoinParse | pkg/store/key.go:20-61 | joining undoes parsing exactly if no parsed section is empty |
| StoreKeys.JoinPrefixFree | pkg/store/key.go:20-36 | a length-prefixed section followed by anything determines the section and what follows, so a scan by prefix is exact |
| Price.TextRoundTrip | x/dex/types/price.go:61-108 | printing a canonical price and parsing it gives it back |
| Price.TextUnique | x/dex/types/price.go:61-108 | a text that parses is the printed form of its price: one spelling per price |
| Price.CanonicalIff | x/dex/types/price.go:23-38 | a canonical price has up to 19 digits, no zero at the end, and an exponent from -100 to 100 |
| Price.ToRatLowest | x/dex/types/price.go:121-132 | the rational value of a price is in lowest terms |
| Price.ToRatOrder | x/dex/types/price.go:121-132 | values are ordered as their common-denominator numerators |
| Price.OrderedBytesRoundTrip | x/dex/types/price.go:140-173 | decoding the ordered bytes of any canonical price gives the price and the remaining bytes; exponents stay within 8 bits |
| Price.OrderedBytesOrder | x/dex/types/price.go:140-152 | byte order of encoded prices is the order of their exact values |
| Price.EqualValueEqualPrice | x/dex/types/price.go:134-137 | canonical prices of equal value are identical, so comparing fields is comparing values |
| Price.ReportedTickIsExactIff | x/dex/keeper/keeper.go:204-211 | the tick the query reports is the tick orders are checked against exactly if its exponent is one a price may have; if anything is reported, exactly if the exponent fits in 8 bits |
| Keys.RecordKeyRoundTrip | x/dex/types/keys.go:124-160 | a record key starts with its side prefix, and decoding the rest gives price and sequence |
| Keys.SidePrefixExact | x/dex/types/keys.go:162-169 | a record key has a side's prefix exactly if the record is on that side of that book |
| Keys.KeyOrderIsPriceThenSeq | x/dex/types/keys.go:124-146 | within a side, key order is price order, then sequence |
| Keys.RecordKeyInjective | x/dex/types/keys.go:124-146 | equal keys belong to equal book, side, price and sequence |
| Keys.KeyLessTotal | x/dex/types/keys.go:124-146 | key order is a strict total order on stored records |
| Keys.AccountDenomScanExact | x/dex/types/keys.go:213-243 | a scan of one account's denom prefix sees exactly the entries of that account and denom, and decodes their sequences |
| Keys.CountKeyRoundTrip | x/dex/types/keys.go:184-211 | decoding a counter key gives account and denom |
| Keys.OrderIDKeyRoundTrip | x/dex/types/keys.go:91-121 | decoding an order-ID key gives account and ID |
| Iterator.ComparePrices | x/dex/keeper/keeper_ob_iterator.go:104-126 | comparing exact values of canonical prices is comparing the prices |
| Iterator.OrderBookIterator.constructor | x/dex/keeper/keeper_ob_iterator.go:27-52 | a new iterator will return the listing, turned round level by level if read from the tail |
| Iterator.OrderBookIterator.Next | x/dex/keeper/keeper_ob_iterator.go:59-66 | returns the next of what is to be returned, or reports that nothing is left |
| Iterator.OrderBookIterator.NextFromTail | x/dex/keeper/keeper_ob_iterator.go:68-101 | the pool neither loses nor repeats a record and returns the oldest of the best price first |
| Iterator.OrderBookIterator.LoadPool | x/dex/keeper/keeper_ob_iterator.go:68-101 | loading records changes nothing about what will be returned and stops at a change of price or the end |
| Iterator.OrderBookIterator.RemoveAndReturnCurrentTailRecord | x/dex/keeper/keeper_ob_iterator.go:103-126 | removes the oldest record of the pooled level, last or last but one |
| Iterator.OrderBookIterator.NextFromIterator | x/dex/keeper/keeper_ob_iterator.go:133-146 | takes the first entry the store has left |
| Iterator.TurnedPermutes | x/dex/keeper/keeper_ob_iterator.go:68-126 | turning levels round is a permutation of the stream |
| Iterator.OldestFirstSorted | x/dex/keeper/keeper_ob_iterator.go:68-126 | a stream sorted by price and sequence descending becomes price descending, sequence ascending, whatever the levels |
| Priority.AheadStrictTotal | x/dex/keeper/keeper_matching_finder.go:128-152 | effective price and then sequence is a strict total order on records of both books |
| Priority.AcceptsAhead | x/dex/keeper/keeper_matching_finder.go:190-197 | whatever is ahead of an acceptable record is acceptable |
| Priority.BestMatchIsAhead | x/dex/keeper/keeper_matching_finder.go:128-152 | the finder's comparison of the two loaded records is that order |
| Priority.MergeSorts | x/dex/keeper/keeper_matching_finder.go:49-91 | merging two sorted streams, stopping when neither head is acceptable, yields all acceptable records in order |
| Priority.MergeIsPriorityList | x/dex/keeper/keeper_matching_finder.go:49-91 | the merge equals filtering the union and sorting it |
| Finder.QueueSorted | x/dex/keeper/keeper_ob_iterator.go:175-180 | either side of a book is read completely and in priority order for takers of either side |
| Finder.FinderYieldsPriorityList | x/dex/keeper/keeper_matching_finder.go:49-152 | the finder over any stored records of a book and its inverse yields the acceptable ones by effective price and age |
| Finder.MatchingFinder.constructor | x/dex/keeper/keeper_matching_finder.go:28-47 | a new finder plans the merge of its two iterators |
| Finder.MatchingFinder.Next | x/dex/keeper/keeper_matching_finder.go:49-91 | returns the head of the plan and keeps the rest; reports no match only if the plan is empty, an error only for an unspecified order type |
| Finder.MatchingFinder.LoadOrders | x/dex/keeper/keeper_matching_finder.go:105-126 | loading heads changes nothing about the two streams |
| Finder.MatchingFinder.IsDirectRecordMatches | x/dex/keeper/keeper_matching_finder.go:154-170 | true exactly if a direct record is loaded and acceptable |
| Finder.MatchingFinder.IsInvertedRecordMatches | x/dex/keeper/keeper_matching_finder.go:172-189 | true exactly if an inverted record is loaded and acceptable at its reciprocal price |
| Finder.MatchingFinder.IsDirectRecordBest | x/dex/keeper/keeper_matching_finder.go:128-152 | true exactly if the direct record is acceptable and no acceptable inverted record is ahead of it |
| Amounts.MulCeilIsCeiling | x/dex/types/order.go:283-305 | the locked or expected amount is quantity times price rounded up, and fails exactly beyond 256 bits |
| Amounts.CeilMulLeast | x/dex/types/order.go:283-298 | rounding up gives the least integer that is not below the product |
| Amounts.CeilMulLots | x/dex/types/order.go:283-298 | taking whole lots off a quantity lowers the rounded amount by exactly their price |
| Matching.MatchTradesLots | x/dex/matching-engine/match.go:156-200 | a match trades n lots: n times the denominator in base, n times the numerator in quote of the maker's effective price; it closes the side with the smaller exact maximum |
| Matching.MakerLots | x/dex/matching-engine/match.go:251-278 | a maker offers as many lots met through the inverse book as met directly: remaining divided by the denominator of its price |
| Matching.LotsBoundedByMaker | x/dex/matching-engine/match.go:156-200 | a match takes no more than the maker has, and all its lots unless only the taker is closed |
| Matching.LotsBoundedByTaker | x/dex/matching-engine/match.go:156-200 | a match takes no more than the taker can, and all it can unless only the maker is closed |
| Matching.TakerDust | x/dex/matching-engine/match.go:172-189 | a limit taker that is closed keeps less than one lot |
| Matching.MakerFill | x/dex/matching-engine/match.go:109-126 | seen from the maker, direct or inverted, a match moves n lots at its own price |
| Matching.TakerStaysCovered | x/dex/matching-engine/match.go:109-113 | the taker's quantity and balance never go negative, and its balance keeps covering the rest at its limit |
| Matching.MatchIsMaximal | x/dex/matching-engine/match.go:366-376 | no larger pair of integers at exactly that price fits both sides |
| Matching.MatchIsLargest | x/dex/matching-engine/match.go:156-306 | for limit and market takers, direct and inverted makers: the trade is at exactly the maker's price, within what both have, a market order's balance included, and no larger pair is |
| Matching.TakerClosedIff | x/dex/matching-engine/match.go:172-189 | the taker stays open exactly if the maker has less than it wants and, for a market order, than it can pay for |
| Matching.ClosedTakerIsDone | x/dex/matching-engine/match.go:172-189 | a taker that is closed does not want, or as a market order cannot pay for, one more lot of the maker |
| Matching.ExecutableIffOneLot | x/dex/keeper/keeper_matching.go:161-184 | a record is executable as a maker exactly if a whole lot remains |
| Orders.RestingAmounts | x/dex/types/order.go:229-274 | a resting record's balance is exactly what its quantity locks, and all its amounts are positive |
| Orders.FillKeepsAmounts | x/dex/matching-engine/match.go:109-150 | a fill through either book keeps that, and lowers the expected amount by exactly what the maker receives |
| Orders.ClosedMakerLeavesRemainder | x/dex/matching-engine/match.go:134-150 | a maker that is closed trades something and keeps exactly its quantity modulo the denominator of its price |
| Actions.AppendOrAddToAccountsToCoin | x/asset/ft/types/dex.go:115-126 | the loop merges into the first entry of the account and denom, or appends |
| Actions.AppendOrAddSum | x/asset/ft/types/dex.go:115-126 | merging raises one total, by the amount merged |
| Actions.AddToSends | x/asset/ft/types/dex.go:102-113 | the loop merges into the first transfer of the same parties and denom, or appends |
| Actions.AddSendSum | x/asset/ft/types/dex.go:102-113 | what one account sends another in a denom grows by the amount added |
| Actions.AddSendFlow | x/asset/ft/types/dex.go:102-113 | what an account sends and is sent in all changes by the amount added |
| Engine.OnlyLastStaysOpen | x/dex/matching-engine/match.go:41-56 | fills follow the makers in order; all are closed except possibly the last, and that one only if the taker is closed |
| Engine.TakerAfterMatching | x/dex/matching-engine/match.go:41-61 | what is left of the taker is never negative and stays covered |
| Engine.TakerConserved | x/dex/matching-engine/match.go:41-61 | what is left is what was brought less what the fills traded and spent |
| Engine.ReflectsFill | x/dex/matching-engine/match.go:92-150 | registering one more fill keeps the actions equal to the sums over all fills: unlocked, no longer expected, spent, received and sent between any two accounts |
| Engine.PaidFromPledges | x/dex/matching-engine/match.go:92-150 | what fills make an account pay comes out of what its own orders pledged, and for the taker out of what it spends |
| Engine.MatchingResult.SendFromTaker | x/dex/matching-engine/matching_result.go:65-78 | registers a payment of the taker and lowers the maker's expectation |
| Engine.MatchingResult.SendFromMaker | x/dex/matching-engine/matching_result.go:80-93 | registers a payment of the maker and unlocks it |
| Engine.MatchingResult.DecreaseMakerLimits | x/dex/matching-engine/matching_result.go:95-110 | registers what a closed maker gets back |
| Engine.MatchingResult.IncreaseTakerLimitsForRecord | x/dex/matching-engine/matching_result.go:112-144 | registers what a resting taker locks and expects, and sets its balance to exactly the locked amount |
| Engine.MatchingResult.RemoveRecord | x/dex/matching-engine/matching_result.go:146-152 | appends a record to remove |
| Engine.MatchingResult.UpdateRecord | x/dex/matching-engine/matching_result.go:154-157 | sets the record to update |
| Engine.MatchingEngine.MatchRecords | x/dex/matching-engine/match.go:64-154 | one maker is matched and the result object reflects one more fill; fails exactly if the data of a maker to close is missing |
| Engine.MatchingEngine.MatchOrder | x/dex/matching-engine/match.go:25-62 | the loop ends, and its result reflects the fold of the match over the finder's plan |
| Exchange.WithBooksPaired | x/dex/keeper/keeper.go:631-692 | both directions of a pair get consecutive IDs once, and no existing book changes |
| Exchange.MakersElements | x/dex/keeper/keeper_matching_finder.go:49-91 | the makers of an order are exactly the acceptable open counter orders |
| Acceptance.ValidOrderIff | x/dex/types/order.go:85-180 | an order is well-formed exactly if its ID, denoms and quantity are in range and it has the fields of a limit order of any time in force, or of a market order of either side |
| Acceptance.GridIff | x/dex/keeper/keeper.go:534-614 | the step and tick checks, written out for the denoms' own reference amounts, or the default where a denom has none |
| Acceptance.AcceptedIff | x/dex/keeper/keeper.go:56-98 | a placement is refused before matching exactly for its fields, its denoms, its place on the grid, its good-til or an ID already used |
| Acceptance.MarketSidesAlike | x/dex/types/order.go:154-170 | a market order is accepted to buy exactly if it is accepted to sell |
| Exchange.TakerReady | x/dex/keeper/keeper_matching.go:120-157 | a valid order starts with a balance that covers it at its limit |
| Exchange.ApplyFillsShape | x/dex/keeper/keeper_matching_result.go:19-43 | fills leave well-formed orders: untouched, changed in quantity only, or gone |
| Exchange.ApplyFillsTotals | x/dex/keeper/keeper_matching_result.go:19-43 | settling fills lowers each ledger total by exactly what the matching collects |
| Exchange.CrossesSymmetric | x/dex/keeper/keeper_matching_finder.go:154-197 | two orders cross whichever of them is the taker |
| Exchange.MatchedFills | x/dex/keeper/keeper_matching.go:17-61 | the fills of a placement concern distinct, acceptable open orders |
| Exchange.NothingLeftToCross | x/dex/keeper/keeper_matching.go:66-89 | an order that is not closed has removed everything it crosses |
| Exchange.PlaceKeepsInv | x/dex/keeper/keeper.go:56-98 | placing keeps the invariant: resting relation, uncrossed book, unique IDs, books, expiries |
| Exchange.CancelKeepsInv | x/dex/keeper/keeper.go:898-924 | cancelling keeps it |
| Exchange.CancelByDenomKeepsInv | x/dex/keeper/keeper.go:110-141 | cancelling by denom keeps it |
| Exchange.BeginBlockKeepsInv | x/delay/keeper/keeper.go:154-194 | expiring keeps it |
| Exchange.StepKeepsInv | x/dex/keeper/keeper.go:56-141 | every message, block, change of parameters and movement of funds keeps it, and never forgets a used order ID; only an accepted placement needs free numbers |
| Exchange.RunKeepsInv | x/dex/keeper/keeper.go:56-141 | every run in which accepted placements find free numbers keeps it, whatever else it holds |
| Exchange.FewPlacementsAreFeasible | x/dex/keeper/keeper_store.go:50-62 | a run is feasible if sequence numbers and book IDs suffice for its placements, and always without placements |
| Exchange.PlacedTotals | x/dex/keeper/keeper_matching_result.go:19-43 | locked, pledged and expected totals after any placement are those before, plus what rests, less what the settled fills release |
| Exchange.PayFillsFunds | x/asset/ft/keeper/keeper_dex.go:68-78 | settling fills changes every account's funds by what it receives less what it pays |
| Exchange.PlaceKeepsSolvent | x/asset/ft/keeper/keeper_dex.go:34-87 | after a placement every account's funds still cover what its open orders have to pay |
| Exchange.StepKeepsSolvent | x/asset/ft/keeper/keeper_dex.go:648-670 | so they do after every step, withdrawals included |
| Exchange.RunKeepsSolvent | x/asset/ft/keeper/keeper_dex.go:34-87 | and after every run |
| Exchange.ReachableInv | x/dex/keeper/keeper.go:56-141 | every state reached from an empty exchange satisfies the invariant and is solvent |
| Guarantees.BookNeverCrossed | x/dex/keeper/keeper_matching.go:57-118 | in every reachable state each bid is strictly below each ask, over a book and its inverse together |
| Guarantees.LocksAreBacked | x/dex/matching-engine/matching_result.go:65-144 | a locked amount belongs to an open order of that account that spends or reserves that denom |
| Guarantees.ClosedAccountsAreFree | x/dex/matching-engine/matching_result.go:65-144 | without open orders nothing is locked, expected or counted |
| Guarantees.OpenOrdersAreFunded | x/asset/ft/keeper/keeper_dex.go:304-327 | in every reachable state an account's funds cover all that its open orders have to pay |
| Guarantees.EveryoneCanPay | x/asset/ft/keeper/keeper_dex.go:68-78 | whatever a placement makes a maker or taker pay, the account had before: no transfer fails for lack of funds |
| Guarantees.PlaceKeepsBackedIff | x/asset/ft/keeper/keeper_dex.go:407-435 | the step to Reserves: a placement leaves no account with more locked than it has exactly if what it spent, what rests and the reserve were free, counting what its fills gave back |
| Guarantees.OtherStepsKeepBacked | x/asset/ft/keeper/keeper_dex.go:648-670 | nothing but a placement can leave an account with more locked than it has |
| Guarantees.PlacedOrdersFitTheGrid | x/dex/keeper/keeper.go:534-614 | every order placed has a quantity that 10^max(0, param + k) divides and a limit price that 10^(param + j) divides, k and j the rounded-up logarithms of the base amount and of quote by base |
| Guarantees.BalanceBroughtIn | x/dex/keeper/keeper_matching.go:120-157 | a limit buy brings the least amount that pays for its quantity at its limit, a limit sell its quantity, a market buy the spendable balance, a market sell the smaller of quantity and balance |
| Guarantees.RemainderRests | x/dex/keeper/keeper_matching.go:62-89 | a good-til-cancelled order is in the book afterwards exactly if it was not closed and one lot is left, with exactly the untraded quantity |
| Guarantees.OrdersPerDenomAreLimited | x/dex/keeper/keeper.go:1291-1316 | an order that rests leaves its creator with no more open orders in its denoms than the limit; any other placement leaves nobody with more than before |
| Guarantees.LocksMoveExactly | x/dex/matching-engine/matching_result.go:65-144 | a placement that rests lowers locked totals by what its fills release and raises the creator's by the rest at its price and the reserve |
| Guarantees.OrderIDsAreNeverReused | x/dex/keeper/keeper.go:1255-1266 | an accepted order ID is refused after any further run |
| Guarantees.FillOrKill | x/dex/keeper/keeper_matching.go:94-99 | a fill-or-kill order that succeeds trades its whole quantity and nothing rests, or it only registers: no open order and no funds change, though its ID and a sequence number are used up |
| Guarantees.MatchedConserves | x/dex/keeper/keeper_matching.go:120-157 | an order never trades more than its quantity nor spends more than its balance |
| Guarantees.ImmediateOrdersNeverRest | x/dex/keeper/keeper_matching.go:57-118 | only good-til-cancelled limit orders enter the book |
| Guarantees.FillsTradeAtMakerPrice | x/dex/matching-engine/match.go:156-200 | every fill is at exactly its maker's price |
| Guarantees.LimitIsRespected | x/dex/keeper/keeper_matching_finder.go:154-197 | no fill of a limit order is worse than its limit |
| Guarantees.NobodyIsPassedOver | x/dex/keeper/keeper_matching_finder.go:49-152 | every open order the taker could trade with at a better price than a filled maker's, or at the same price and older, in either book, was filled before and closed |
| Guarantees.MakersAreExactly | x/dex/keeper/keeper_matching_finder.go:154-197 | the makers are exactly the open orders on the other side of the pair, in either book, at a price that suits: any for a market order, no worse than the limit for a limit order |
| Guarantees.MakersByPriceThenAge | x/dex/keeper/keeper_matching_finder.go:128-152 | makers come at better prices first and, at equal prices, older first, whichever book each is in |
| Guarantees.FillsByPriceThenAge | x/dex/keeper/keeper_matching_finder.go:49-152 | so do the fills of a placement |
| Effects.FillsAreLargest | x/dex/matching-engine/match.go:25-200 | fill by fill an order trades the largest amounts at the maker's price that the maker has and that are left of its quantity and, for a market order, of its balance |
| Effects.StopsOnlyWhenDone | x/dex/matching-engine/match.go:25-62 | matching stops only when the order is done with its last maker or has taken all lots of every order it can trade with |
| Effects.MakersAfter | x/dex/matching-engine/match.go:109-150 | a filled order keeps its terms less what was traded, and leaves the book exactly if less than a lot is left; all others stay as they are |
| Effects.PlaceDoes | x/dex/keeper/keeper_matching.go:17-118 | a placement that succeeds takes a number and its ID; unless a killed fill-or-kill order, all its fills are applied and paid; what is left of a good-til-cancelled order rests on its terms; immediate and market orders leave nothing |
| Effects.PlaceSucceedsIff | x/dex/keeper/keeper_matching.go:17-118 | an accepted placement fails exactly for the asset module's refusal, funds that are not free, or the limit of orders |
| Effects.CountIsNumber | x/dex/keeper/keeper.go:1291-1335 | the counter of an account and denom is the number of its open orders that buy or sell it |
| Effects.FillPays | x/dex/matching-engine/match.go:92-126 | in each fill the buyer pays the quote and gets the base, the seller the reverse |
| Effects.FillTransfers | x/dex/matching-engine/match.go:92-126 | between two accounts a fill transfers exactly that |
| Effects.CancelDoes | x/dex/keeper/keeper.go:898-924 | cancelling takes out the one order of that owner and ID and fails exactly if there is none |
| Effects.CancelByDenomDoes | x/dex/keeper/keeper.go:110-141 | cancelling by denom takes out the account's orders that buy or sell the denom, and no other |
| Effects.BeginBlockDoes | x/delay/keeper/keeper.go:154-274 | a block takes out the orders whose height is past, or whose second is reached if they have no height, and no other |
| Effects.WithdrawDoes | x/asset/ft/keeper/keeper_dex.go:648-670 | money leaves exactly if the account has it and no order locks it |
| Effects.UpdateParamsDoes | x/dex/keeper/keeper.go:247-266 | parameters are set as given, exactly if authorised and in range |
| Effects.TotalsAddUp | x/dex/types/order.go:229-274 | locked, expected and counted totals are those without an order and what it adds: a buyer locks the rounded-up quote and expects the base, a seller the reverse, and the reserve is locked on top |
| Effects.OneOrderOnRecord | x/asset/ft/keeper/keeper_dex.go:201-352 | the stored ledgers and counters while a single order is open, in those amounts |
| Effects.FillUnexpects | x/dex/matching-engine/match.go:109-150 | a fill takes all of a closed maker's expectation off, and the difference of the rounded amounts otherwise |
| Effects.ExpectationsMoveExactly | x/dex/matching-engine/matching_result.go:65-144 | a placement that rests lowers expected totals by what its fills take off and raises the creator's by the rest of the base if it buys, of the quote, rounded up, if it sells |
| BookDepth.TakesAll | x/dex/matching-engine/match.go:25-62 | an order, limit or market, is left over exactly if it outlasts the makers, and then has taken all whole lots of every one of them |
| Reserves.StaysIffWillRest | x/dex/keeper/keeper_matching.go:57-89 | whether a placement leaves something in the book, what it trades and what its rest locks, read off the order and the book before it |
| Reserves.KeepsBackedIffReserveFits | x/asset/ft/keeper/keeper_dex.go:407-435 | a placement leaves no account with more locked than it has exactly if a condition on the order, the acceptable makers and the free funds holds before it |
| Reserves.CostsAtMostLocked | x/dex/matching-engine/matching_result.go:112-144 | what a resting order spends and what its rest locks are never more than the whole order locks at its limit |
| Reserves.FullyCoveredKeepsBacked | x/asset/ft/keeper/keeper_dex.go:407-435 | an order whose whole amount and reserve are free keeps every account backed, whatever it meets |
| Reserves.UnmatchedKeepsBacked | x/asset/ft/keeper/keeper_dex.go:304-327 | an order that meets no acceptable maker keeps every account backed |
| Reserves.KeepsBackedIffFullyCovered | x/asset/ft/keeper/keeper_dex.go:407-435 | for a resting sell, or a resting buy that meets no better price, without makers of its creator's own: exactly if the whole order and the reserve are free |
| Reserves.StepKeepsBackedIff | x/asset/ft/keeper/keeper_dex.go:304-435 | a step keeps every account backed exactly if it is no successful placement or the condition holds |
| Reserves.BackedThroughoutIff | x/asset/ft/keeper/keeper_dex.go:304-435 | every account is backed in every state of a run exactly if the condition holds at each successful placement |
| Reserves.CoveredOrdersStayBacked | x/asset/ft/keeper/keeper_dex.go:304-435 | over any run in which every order is placed with its whole amount and reserve free, every account stays backed |
| Lifetimes.StepRemoves | x/dex/keeper/keeper.go:826-924 | a step removes exactly the orders it cancels, expires or closes by a fill, leaves the terms of all others and reopens none |
| Lifetimes.OpenUntilRemoved | x/dex/keeper/keeper.go:826-924 | over any run an open order is in the book at the end exactly if no step removed it, and then on its own terms |
| Lifetimes.OpenUntilDue | x/delay/keeper/keeper.go:154-274 | an order that no cancel concerns and no fill closes is in the book exactly if it was due in none of the blocks |
| Lifetimes.HeightDecides | x/delay/keeper/keeper.go:244-274 | with a height, whatever its time: exactly if no block was above the height |
| Lifetimes.TimeDecides | x/delay/keeper/keeper.go:163-194 | with only a time: exactly if no block had reached the whole second of that time |
| Lifetimes.NoOrderOutlivesItsGoodTil | x/delay/keeper/keeper.go:154-274 | in every reachable state no open order is past its height, or its time if it has no height |
| Lifetimes.AcceptedTimeMayBeDue | x/dex/keeper/good_til.go:12-35 | a time that is accepted lies ahead, yet is due at once exactly if it is within the second of the block |
| Lifetimes.ExpiresEarlyIffFraction | x/delay/types/keys.go:30-43 | an order that rests is gone from the book in some block before its time exactly if the time is not a whole second |
| Witnesses.GoneBeforeItsTime | x/delay/types/keys.go:30-43 | reachable: good til 1.5 s, accepted at 1.2 s and resting, gone in a block at 1.3 s |
| Witnesses.OpenPastItsTime | x/dex/keeper/good_til.go:37-51 | reachable: good til height 100 and 2 s, still open in a block at 10 s |
| Witnesses.OpenInTheBlockOfItsHeight | x/delay/keeper/keeper.go:244-274 | reachable: good til height 5, still open in block 5 and gone in block 6 |
| Witnesses.ReserveExceedsFunds | x/dex/matching-engine/matching_result.go:112-144 | reachable: a partly filled order whose rest and reserve lock two of the one coin its owner has left |
| Witnesses.ReportedTickWraps | x/dex/keeper/keeper.go:204-211 | equal reference amounts and the exponent -300: the tick is 10^-300, the query reports 10^-44 |
| Delay.ItemKeyRoundTrip | x/delay/types/keys.go:30-80 | decoding an item key gives its time or height and its identifier |
| Delay.ItemOrder | x/delay/types/keys.go:30-80 | byte order of item keys is due time, then identifier |
| Delay.AgendaSorted | x/delay/keeper/keeper.go:163-194 | iteration lists every item once in that order, so what is due is a prefix |
| Delay.ItemIDsInjective | x/dex/types/keys.go:171-181 | different orders have different item identifiers |
| Store.WithOrderIndexed | x/dex/keeper/keeper.go:782-824 | entering an order keeps every index exact: order data, record, ID, denom entries, counters, scheduled expiry |
| Store.WithoutOrderIndexed | x/dex/keeper/keeper.go:826-884 | removing an order keeps every index exact, and its counters are not zero before |
| Store.UpdatedIndexed | x/dex/keeper/keeper.go:939-956 | a change of quantities concerns the record index only |
| Store.StreamsAreMakers | x/dex/keeper/keeper_matching_finder.go:28-47 | the finder over the stored records of both books plans exactly the open makers in priority |
| Settlement.SettledIsApplied | x/dex/keeper/keeper_matching_result.go:25-35 | removing closed records and saving one leaves exactly what the fills leave |
| Settlement.BatchTotals | x/dex/keeper/keeper_matching_result.go:19-43 | ledger totals after a placement are those before, plus what rests, less what the fills release |
| Settlement.BatchBearable | x/asset/ft/keeper/keeper_dex.go:34-87 | no ledger can fall below zero while a placement is settled |
| Settlement.ReleaseBalanced | x/dex/keeper/keeper.go:908-923 | the ledgers always hold what a cancellation takes off, and stay exact after it |
| Settlement.CoveredSends | x/asset/ft/keeper/keeper_dex.go:68-78 | transfers made one after another all succeed if no account sends more in all than it has |
| DexKeeper.Keeper.GenNextOrderSequence | x/dex/keeper/keeper_store.go:50-62 | draws the next sequence and changes nothing else |
| DexKeeper.Keeper.ReserveOrderID | x/dex/keeper/keeper.go:1255-1266 | succeeds exactly for an ID not reserved before, and reserves it |
| DexKeeper.Keeper.GetOrGenOrderBookIDs | x/dex/keeper/keeper.go:631-663 | returns the IDs of the book and its inverse, existing or generated, with their data |
| DexKeeper.Keeper.GenOrderBookIDsFromDenoms | x/dex/keeper/keeper.go:674-692 | generates two consecutive IDs and keeps the data the inverse of the IDs |
| DexKeeper.Keeper.SaveOrderBookIDWithData | x/dex/keeper/keeper.go:703-720 | stores the ID and the data of one direction |
| DexKeeper.Keeper.IncrementAccountDenomsOrdersCounter | x/dex/keeper/keeper.go:1291-1316 | succeeds exactly if both counters are below the limit, and raises both |
| DexKeeper.Keeper.DecrementAccountDenomOrdersCounter | x/dex/keeper/keeper.go:1318-1335 | succeeds exactly if neither counter is zero, and lowers both |
| DexKeeper.Keeper.DelayGoodTilCancellation | x/dex/keeper/good_til.go:37-105 | schedules by height, or failing that by time, unless the key is taken |
| DexKeeper.Keeper.StoreBlockExecution | x/delay/keeper/keeper.go:118-152 | stores an item under its height unless the key is taken |
| DexKeeper.Keeper.StoreDelayedExecution | x/delay/keeper/keeper.go:83-116 | stores an item under its whole second unless the key is taken or the time is negative |
| DexKeeper.Keeper.RemoveGoodTilDelay | x/dex/keeper/good_til.go:107-154 | removes whatever the expiry may be scheduled under |
| DexKeeper.Keeper.SaveOrderWithOrderBookRecord | x/dex/keeper/keeper.go:782-824 | saves record, order data, ID and denom entries, for good-til-cancelled limit orders only |
| DexKeeper.Keeper.CreateOrder | x/dex/keeper/keeper.go:722-780 | enters an order into every index; fails exactly if a counter is at its limit |
| DexKeeper.Keeper.RemoveOrderByRecord | x/dex/keeper/keeper.go:826-884 | removes an open order from every index and cannot fail |
| DexKeeper.Keeper.ValidateCoinIsNotLockedByDEXAndBank | x/asset/ft/keeper/keeper_dex.go:648-670 | true exactly if the coin is covered by funds that nothing locks |
| DexKeeper.Keeper.DEXIncreaseLocked | x/asset/ft/keeper/keeper_dex.go:304-327 | raises one locked balance, exactly if the amount is positive and covered by funds that nothing locks |
| DexKeeper.Keeper.DEXDecreaseLocked | x/asset/ft/keeper/keeper_dex.go:330-352 | lowers one locked balance, exactly if the amount is positive and covered |
| DexKeeper.Keeper.DEXIncreaseExpectedToReceive | x/asset/ft/keeper/keeper_dex.go:201-232 | raises one expected amount, for recorded denoms only |
| DexKeeper.Keeper.DEXDecreaseExpectedToReceive | x/asset/ft/keeper/keeper_dex.go:235-269 | lowers one expected amount, for recorded denoms only |
| DexKeeper.Keeper.DEXCheckOrderAmounts | x/asset/ft/keeper/keeper_dex.go:108-118 | true exactly if the asset module admits the amounts and what the creator is to spend is free |
| DexKeeper.Keeper.SendCoins | x/asset/ft/keeper/keeper_dex.go:68-78 | moves a coin, exactly if the sender's funds cover it |
| DexKeeper.Keeper.SendAllCoins | x/asset/ft/keeper/keeper_dex.go:68-78 | makes the transfers in order, exactly if each is covered when its turn comes |
| DexKeeper.Keeper.DEXExecuteActions | x/asset/ft/keeper/keeper_dex.go:31-90 | succeeds exactly if admitted, what is spent and locked is free, no ledger falls below zero and every transfer can be paid; then ledgers and funds move by the sums and the transfers are made |
| DexKeeper.Keeper.DEXDecreaseLimits | x/asset/ft/keeper/keeper_dex.go:92-105 | takes coins and an expected amount off, exactly if all are positive and covered |
| DexKeeper.Keeper.ApplyMatchingResult | x/dex/keeper/keeper_matching_result.go:19-43 | the store represents the orders the fills leave, indexes, ledgers and funds alike; it fails only if not admitted or not affordable; nothing happens without a trade |
| DexKeeper.Keeper.NewOrderBookSideIterator | x/dex/keeper/keeper_ob_iterator.go:175-180 | iterates the stored records of one side |
| DexKeeper.Keeper.NewMatchingFinder | x/dex/keeper/keeper_matching_finder.go:28-47 | its plan is the open makers in price-time priority |
| DexKeeper.Keeper.MatchOrder | x/dex/keeper/keeper_matching.go:17-118 | concludes a placement as type and time in force demand; succeeds exactly if the state machine does, with the same state and the fills' payments |
| DexKeeper.Keeper.PlaceOrder | x/dex/keeper/keeper.go:56-98 | refines placing in the state machine, success and failure, state and payments |
| DexKeeper.Keeper.CancelOrder | x/dex/keeper/keeper.go:898-924 | succeeds exactly if the account has an open order of that ID, and removes that one |
| DexKeeper.Keeper.CancelOrderBySequence | x/dex/keeper/keeper.go:890-896 | cancels the account's order with the ID found under the sequence |
| DexKeeper.Keeper.CancelOrdersByDenom | x/dex/keeper/keeper.go:110-141 | cancels all and only the account's orders that touch the denom |
| DexKeeper.Keeper.ExecuteDelayedItems | x/delay/keeper/keeper.go:163-194 | cancels exactly the orders due by time, each once, and cannot fail |
| DexKeeper.Keeper.ExecuteBlockItems | x/delay/keeper/keeper.go:244-274 | cancels exactly the orders due by height, each once, and cannot fail |
| DexKeeper.Keeper.BeginBlocker | x/delay/keeper/keeper.go:154-161 | the start of a block expires exactly what is due and cannot fail |
| DexKeeper.Keeper.SetParams | x/dex/keeper/keeper.go:247-266 | sets parameters exactly if authorised and valid |
| DexKeeper.Keeper.WithdrawCoin | x/asset/ft/keeper/before_send.go:79-84 | money leaves an account exactly if nothing locks it |
| DexKeeper.Keeper.Deliver | x/dex/keeper/keeper.go:56-141 | one message, block or movement of funds refines one step and succeeds exactly if the state machine does; what fails leaves store, transfers and state as they were; transfers between any two accounts grow by exactly what the settled fills make them pay |
| DexKeeper.Keeper.Execute | x/dex/keeper/keeper.go:56-141 | any feasible sequence refines the run of the state machine, and transfers between any two accounts grow by the payments of all its settled fills |
| Genesis.GetAccountsOrders | x/dex/keeper/keeper.go:268-350 | lists every open order once; no lookup fails |
| Genesis.GetOrderBooksWithID | x/dex/keeper/keeper.go:1121-1154 | lists every book with its data |
| Genesis.GetAccountsDenomsOrdersCounts | x/dex/keeper/keeper.go:446-482 | lists every counter |
| Genesis.ExportReserveOrderIDs | x/dex/keeper/keeper.go:492-506 | lists exactly the reserved IDs |
| Genesis.ExportGenesis | x/dex/genesis.go:102-144 | exporting a running exchange never fails and is complete, parameters included |
| Genesis.Validate | x/dex/types/genesis.go:17-51 | accepts exactly valid parameters, distinct sequences, known denoms and valid orders |
| Genesis.InitGenesis | x/dex/genesis.go:13-100 | starting succeeds exactly for a valid state whose orders are good-til-cancelled limit orders of listed pairs; the store then holds what the state lists, entered in order; an export restores parameters and all the exchange keeps, entry by entry |
| Genesis.StartedHoldsEveryOrder | x/dex/genesis.go:41-82 | an exchange started from any valid state has valid parameters and holds every listed order under its own sequence and the book of its pair |
| Genesis.IndexesUnique | x/dex/genesis.go:41-82 | the open orders determine the order indexes |
| Genesis.ImportItems | x/delay/keeper/keeper.go:196-211 | adds a list, by time or by height, to the items stored, and fails exactly on an empty identifier, a time before 1970 or a key already taken |
| Genesis.ReimportItems | x/delay/genesis.go:15-39 | the items of a running exchange, by time and by height, survive export and import |
| ByteScans.DenomScanListing | x/dex/keeper/keeper.go:110-141 | scanning an account's denom prefix in byte order and decoding each key yields the sequences on record, ascending, each once |
| ByteScans.SideScanListing | x/dex/keeper/keeper_ob_iterator.go:175-180 | scanning a side's prefix in byte order visits exactly the side's records in the order the iterators get, and decodes price and sequence |
| ByteScans.StoreKeysEncode | x/dex/types/keys.go:124-243 | every key of a store that represents a sound state encodes, so those scans are scans of that store |

## Left out

- Freezing, whitelisting limits, features and extension contracts of the asset module: their verdict is an input to a placement.
- Events, logging, queries, pagination and gas: they do not change the store.
- Wrap-around of order and book sequence numbers: an accepted placement is modelled while a sequence number, and two book IDs for a new pair, are left.
- Settings of denoms by their admins: reference amounts are an arbitrary input to each placement.
- The reserve query of an account and the order-book queries: they only read what the indexes hold.
- Address parsing, account lookup and protobuf encodings: values stand for their encodings.
- Delayed messages other than order expiries: the exchange is the only client modelled.
- Fees, the other modules of the chain and application wiring: not part of the exchange.
- Actions.AppendOrAddToAccountsToCoin: returns a new list where the original changes one in place.
- DexKeeper.Keeper.DEXCheckOrderAmounts: the rules on features, freezing and limits are one flag.
- DexKeeper.Keeper.DEXExecuteActions: the rules on features, freezing and limits and the call of an extension contract are one flag; what a contract does when called is not modelled.
- Genesis.ExportGenesis: lists entries in any order, where the original follows key order.
- Engine.MatchingEngine.MatchOrder: reads order data from the store as it is before the matching, which nothing changes meanwhile.
