# CryptoZap transfer analysis in Dafny

CryptoZap is a React dashboard for one ERC-20 token. It fetches the top
holders and their recent transfers from a GraphQL indexer, then analyses
them. This project models that analysis layer and proves properties about
it:

- **Holder statistics** (`calculateStatistics` in `src/App.js`):
  - the balance map and total holdings;
  - the buy/sell ledger, with the unique buyers and sellers and per-holder
    volumes;
  - the volume breakdown, the holdings percentages and the trading signal;
  - the router (DEX) volume analysis.
- **Holder activity**, in both variants of `processTransactions`
  (`src/App.js` and `src/api.js`).
- **Address classification**:
  - the router and pool lists and the BUY / SELL / TRANSFER label of a
    table row;
  - the `isLikelyDEX` frequency and time-window heuristic;
  - the holder filter built on it.
- **Transfer de-duplication**: the sending and receiving transfer lists are
  merged, sorted newest first, and each (time, amount, sender, receiver)
  key is kept once.
- **Table helpers**: the rank ordinal `formatRank`, the DEX-only transfer
  filter and the 100-row pages.
- **Swing-trader analysis** (`src/services/traders/analysis.js`): transfers
  are grouped per address, then holding periods, trading style, score,
  qualification and the top 20 are computed.
- **The Giga Degens view**: the filter-settings merge and the filtered,
  sorted trader list.
- **Price windows and formatting**: `findLocalMinimum`, `findLocalMaximum`
  and `formatAddress`.

Conventions used throughout the model:

- Amounts and prices are exact `real` numbers; timestamps are integer
  milliseconds.
- A field the source tests for falsiness (`Block.Time`, `Transfer.Amount`,
  `Balance.Amount`) is an `Option`. An empty string stands for a missing
  address where the source guards the lower-casing (`Sender?.toLowerCase()`,
  `if (holder?.Holder?.Address)`). Where it calls `.toLowerCase()` without
  a guard, the source throws instead; see "## Left out".
- A null list argument is `None` where the source guards against it.
- Lower-casing is ASCII lower-casing.
- The JavaScript operations the code relies on are written out: `slice`
  with negative indices, `%` that keeps the dividend's sign, `Math.round`,
  and `Math.min()` returning +Infinity.

The operations that the source writes as loops over mutable maps, sets and
counters are methods with loop invariants. These are `calculateStatistics`,
both `processTransactions`, `isLikelyDEX`, the grouping in `processTraders`
and `calculateTraderScore`. Each method is proved equal to a specification
function, and lemmas about those functions state what the source promises.
The pure expressions are functions. Modules:

| file | module | source |
|---|---|---|
| records.dfy | Records | the transfer and holder records, `toLowerCase`, `slice`, `%` |
| sorting.dfy | Sequences | `filter` and `sort` with a "b minus a" comparator |
| map_sums.dfy | MapSums | sums over map values |
| addresses.dfy | Addresses | src/App.js address classifiers |
| statistics.dfy | Statistics | src/App.js `calculateStatistics` |
| activity.dfy | HolderActivity | src/App.js `processTransactions` |
| view.dfy | TransactionView | src/App.js `formatRank`, `filterTransactions`, paging |
| api.dfy | Api | src/api.js heuristics, holder filter, de-duplication |
| api_activity.dfy | ApiActivity | src/api.js `processTransactions` |
| analysis.dfy | TraderAnalysis | src/services/traders/analysis.js |
| giga_degens.dfy | GigaDegens | src/components/GigaDegens/index.jsx |
| trading.dfy | PriceWindows | src/utils/trading.js |
| formatting.dfy | Formatting | src/utils/formatting.js |

`calculateStatistics` calls `determineTradingSignal` at `src/App.js:128`,
before lines 165-170 write the holdings percentages it reads. So its
percentage test always sees 0 + 0, and the reported signal is NEUTRAL for
every input, even when a holder sells a large share of the supply. The
model reproduces this ordering. The signal the rule evidently intends is
given separately, under "## Findings".

## Model

| member | source | states |
|---|---|---|
| Statistics.DetermineTradingSignal | src/App.js:22-54 | BUYING_PRESSURE iff the bought+sold percentage is at least 5 and pressure > 0.6. SELLING_PRESSURE iff at least 5 and pressure < 0.4. A light description iff below 5: selling below 0.4, buying above 0.6. Never "No trading activity" |
| Statistics.DescriptionMatchesSignal | src/App.js:27-53 | "Strong buying" exactly with BUYING_PRESSURE. "Heavy selling" exactly with SELLING_PRESSURE. NEUTRAL exactly with a light or balanced description |
| Statistics.BalancesLastWins | src/App.js:85-93 | The balance map has a key iff some holder has an address and an amount and that lower-cased address. The value comes from the last such holder |
| Statistics.TotalHoldingsNonNegative | src/App.js:95 | Non-negative balances give non-negative total holdings |
| MapSums.SumValues | src/App.js:95 | The reduction over the balance map equals the order-independent sum of its values |
| Statistics.BuildBalances | src/App.js:85-93 | The loop builds exactly the balance map |
| Statistics.TallyTransfers | src/App.js:97-118 | The loop computes exactly the ledger fold over the transfers |
| Statistics.TallySellSide | src/App.js:100-118 | Sell side after any transfer sequence: sellers = key set of the per-holder sell map = holders that sent a counted transfer. Each value is that holder's own sent total. The values sum to totalSellVolume24h |
| Statistics.TallyBuySide | src/App.js:100-118 | Same for the buy side: buyers = holders that received, per-holder values = received totals, sum = totalBuyVolume24h |
| Statistics.Stats | src/App.js:21-213 | The report, with the signal taken at line 128. Its meaning is stated by StatsTotals and StatsSignalAlwaysNeutral |
| Statistics.StatsTotals | src/App.js:100-121 | totalVolume24h = buy + sell volume. uniqueSellers/uniqueBuyers are the holders that sent/received, and never a non-holder. Each total is the sum of its per-holder map |
| Statistics.SumPercentages | src/App.js:138-153 | The map loop adds up each holder's volume as a percentage of its balance, skipping non-positive balances, in any key order |
| Statistics.AnalyseRouterVolumes | src/App.js:173-193 | The loop computes the router buy and sell volumes |
| Statistics.RouterVolumes | src/App.js:173-193 | The (buy, sell) router volumes. Which side each transfer counts on is stated by RouterBuyVolume and RouterSellVolume |
| Statistics.RouterBuyVolume | src/App.js:178-188 | totalBuyVolume is the total amount of the complete transfers whose sender is a non-pool router and whose receiver is not |
| Statistics.RouterSellVolume | src/App.js:178-192 | totalSellVolume is the total amount of the complete transfers whose receiver is a non-pool router and whose sender is not |
| Statistics.RouterVolumesSplit | src/App.js:178-193 | Buy plus sell volume is the total of the complete transfers with a non-pool router on one side only. Router-to-router transfers count in neither |
| Statistics.StatsSignalAlwaysNeutral | src/App.js:123-136 | The report's signal is NEUTRAL for every input, and never "Balanced trading" |
| Statistics.CalculateStatistics | src/App.js:21-213 | None exactly for a missing holder list; otherwise the specified report. Signal always NEUTRAL. Zero volume gives 0/0 shares and "No trading activity", which is also what an empty transfer list gives |
| Statistics.IntendedTradingSignal | src/App.js:123-170 | The rule applied to the final percentages: BUYING / SELLING pressure iff volume > 0, bought+sold ≥ 5 % of holdings, and pressure beyond 0.6 / 0.4 |
| Statistics.SellingScenario | src/App.js:123-170 | Holder a (balance 1000) sends 100 to a non-holder. The report says NEUTRAL / light selling, while the intended rule says SELLING_PRESSURE / heavy selling |
| Addresses.IsPoolAddress | src/App.js:229-239 | Membership of the lower-cased address in the four-entry pool list. Case-insensitive by ClassifiersIgnoreCase |
| Addresses.IsDEXAddress | src/App.js:224-227 | A known router or a pool, after lower-casing. Case-insensitive by ClassifiersIgnoreCase; every pool qualifies by PoolIsDEX |
| Addresses.ClassifiersIgnoreCase | src/App.js:224-239 | Both classifiers give the same answer for an address and its lower-cased form |
| Addresses.PoolIsDEX | src/App.js:224-227 | Every pool address is a DEX address, whatever the router list |
| Addresses.TransactionType | src/App.js:736-743 | BUY iff the sender is a DEX. SELL iff only the receiver is. TRANSFER iff neither is. The pool tests add nothing, and the sender wins for DEX to DEX |
| HolderActivity.InitialFacts | src/App.js:418-430 | Initial records exist exactly for the holders with an address, all at zero with no activity, and never under the empty key. Each balance is that of the last holder entry with the address, 0 without an amount |
| HolderActivity.ApplyAllKeys | src/App.js:432-452 | No transfer adds or removes a record: untracked parties are ignored |
| HolderActivity.ApplyAllFacts | src/App.js:432-452 | After any transfer sequence a record's buys/sells grow by what the address received/sent. Net grows by the difference and the balance is kept. lastActivity is the time of the last transfer touching it |
| HolderActivity.InitialActivity | src/App.js:418-430 | The initialising loop builds the initial records |
| HolderActivity.ApplyTransfers | src/App.js:432-452 | The transfer loop applies every timed transfer with an amount in order |
| HolderActivity.ProcessTransactions | src/App.js:415-455 | Keys are exactly the holder addresses. buys/sells are the received/sent totals, netAmount = buys − sells, lastActivity is the time of the last touching transfer, and balance is the amount of the last holder entry with that address (0 without one) |
| TransactionView.NatToStringRoundTrip | src/App.js:264-270 | The decimal digits printed for a rank read back as the rank |
| TransactionView.OrdinalSuffixRule | src/App.js:258-271 | The suffix is one of st/nd/rd/th. "st"/"nd"/"rd" exactly for positive ranks ending in 1/2/3 outside 11-13. Everything else, negative ranks included, takes "th" |
| TransactionView.FormatRank | src/App.js:258-271 | Empty exactly for rank 0, otherwise starting with '#'. The full rendering is stated by FormatRankRule |
| TransactionView.FormatRankRule | src/App.js:258-271 | Rank 0 gives the empty string. Any other rank gives '#', its decimal digits and the ordinal suffix |
| TransactionView.FilterTransactions | src/App.js:302-343 | A null list gives no rows. Every row comes from the list |
| TransactionView.FilterTransactionsFacts | src/App.js:302-343 | An order-preserving subsequence. The identity when the DEX-only switch is off. Exactly the DEX trades, with their multiplicities, when it is on |
| TransactionView.CurrentPage | src/App.js:345-350 | At most 100 rows for any page number, negative ones included |
| TransactionView.PageContents | src/App.js:345-350 | Page p holds positions (p−1)·100 … p·100 of the filtered list, so at most 100 rows, with the exact length given |
| TransactionView.PagesCover | src/App.js:345-350 | Each filtered transfer appears on exactly one page between 1 and ceil(n/100), at row k mod 100 |
| Api.Window | src/api.js:64 | A timed transfer's window w satisfies w·300000 ≤ time < (w+1)·300000 |
| Api.IsLikelyDEX | src/api.js:41-84 | The counting loop returns the heuristic's verdict, whatever the grouping counters hold |
| Api.LikelyDEX | src/api.js:41-84 | The verdict: more than 30 matching transfers, or at least 5 five-minute windows with more than 10 small trades. Bounds by LikelyDEXThresholds |
| Api.LikelyDEXThresholds | src/api.js:41-83 | A missing list is never flagged. More than 30 matching transfers always are. At most 10 never are |
| Api.LikelyDEXIgnoresCase | src/api.js:44-47 | The verdict is the same for an address and its lower-cased form |
| Api.LikelyDEXIgnoresOthers | src/api.js:44-47 | Inserting a transfer that does not involve the address anywhere in the list leaves the verdict unchanged |
| Api.FilterHolders | src/api.js:153-168 | No more holders than given, each from the input |
| Api.FilterHoldersFacts | src/api.js:153-168 | An order-preserving subsequence keeping each holder iff it is not a known router and not flagged, with its multiplicity. A non-router with at most 10 transfers is always kept |
| Api.FindIndexFrom | src/api.js:272-277 | Returns the first index holding the key, or −1 when none does |
| Api.KeepFirstFrom | src/api.js:271-278 | From position i on, at most one transfer per remaining position |
| Api.KeepFirstFacts | src/api.js:271-278 | The keep-first filter gives a subsequence with pairwise distinct keys that keeps every first occurrence |
| Api.KeepFirstCovers | src/api.js:271-278 | Every key of the list survives the keep-first filter |
| Api.Dedup | src/api.js:269-278 | No more transfers than the two lists hold together |
| Api.DedupOrder | src/api.js:269-278 | Newest first, and no two transfers share (time, amount, sender, receiver) |
| Api.DedupMembers | src/api.js:269-278 | Every transfer comes from one of the two lists |
| Api.DedupCovers | src/api.js:269-278 | Every key of either list appears |
| Api.DedupFacts | src/api.js:269-278 | The merged list is newest first and no two transfers share (time, amount, sender, receiver). Every transfer comes from the inputs, and every input key appears |
| Api.CalculatePercentageChange | src/api.js:288-291 | A zero balance gives 100. Otherwise result × balance = amount × 100 |
| ApiActivity.InitialFacts | src/api.js:298-306 | One fresh record per lower-cased holder address |
| ApiActivity.ApplyAllKeys | src/api.js:309-327 | Transfers never add or remove records |
| ApiActivity.ApplyAllFacts | src/api.js:309-327 | Each record grows by what its address received and sent, and takes the time of the last transfer touching it |
| ApiActivity.ProcessTransactions | src/api.js:294-330 | Keys are exactly the lower-cased holder addresses. buys/sells are the received/sent totals, netAmount = buys − sells, and lastActivity is the last touching time |
| TraderAnalysis.Group | src/services/traders/analysis.js:35-56 | Every address in the map has at least one entry. Its exact contents are stated by GroupIsPerAddress |
| TraderAnalysis.GroupTrades | src/services/traders/analysis.js:35-56 | The grouping loop builds the per-address map |
| TraderAnalysis.GroupIsPerAddress | src/services/traders/analysis.js:37-56 | Each address's list is exactly its own entries in transfer order. A key exists only for addresses that took part |
| TraderAnalysis.TradesOfFacts | src/services/traders/analysis.js:37-56 | List length = sends + receives, so a self-transfer adds two. Sell entries are transfers it sent and buy entries transfers it received |
| TraderAnalysis.HoldingPeriods | src/services/traders/analysis.js:118-125 | One holding period per trade |
| TraderAnalysis.HoldingPeriodsNonNegative | src/services/traders/analysis.js:118-125 | With times in ascending order every period is non-negative |
| TraderAnalysis.HoldingPeriodsTelescope | src/services/traders/analysis.js:118-125 | The periods add up to the hours from the first trade to the last |
| TraderAnalysis.Round | src/services/traders/analysis.js:87-89 | Math.round lands within half a unit, halves rounding up |
| TraderAnalysis.SortedTimes | src/services/traders/analysis.js:81-83 | Ascending times, one per trade |
| TraderAnalysis.SortedTimesPermutation | src/services/traders/analysis.js:81-83 | The sorted times are the trades' times, rearranged (equal multisets) |
| TraderAnalysis.SortedTimeAttained | src/services/traders/analysis.js:81-83 | Every sorted time is the time of some trade |
| TraderAnalysis.SortedTimeBounds | src/services/traders/analysis.js:81-83 | Every trade time lies between the first and the last sorted time |
| TraderAnalysis.SortedTimesEnds | src/services/traders/analysis.js:81-89 | With every trade timed, the first and last sorted times are the earliest and the latest trade times, both attained |
| TraderAnalysis.AvgHoldTime | src/services/traders/analysis.js:86-89 | A mean exists exactly when there are trades and all are timed |
| TraderAnalysis.AvgHoldTimeSpan | src/services/traders/analysis.js:81-89 | The mean hold is round((latest − earliest trade time) / (hours × trade count)) and is non-negative |
| TraderAnalysis.DetermineTradingStyle | src/services/traders/analysis.js:127-133 | Always three labels. "High Volume" iff more than 10 trades, else "Low Volume" |
| TraderAnalysis.TraderScore | src/services/traders/analysis.js:135-147 | The uncapped score 60 + min(2n, 20) + 20·[24 ≤ hold ≤ 168] always lies in [60, 100] |
| TraderAnalysis.CalculateTraderScore | src/services/traders/analysis.js:135-147 | The step-by-step score with its cap at 100 equals the uncapped rule, so the cap never binds |
| TraderAnalysis.AnalyzeTraderPatterns | src/services/traders/analysis.js:79-116 | The trader record built from the trades and the supplied random figures |
| TraderAnalysis.IsQualifiedTrader | src/services/traders/analysis.js:149-154 | Score at least 60 and a mean hold of at least 12 hours. QualifiedByHoldTime shows the score test always passes |
| TraderAnalysis.QualifiedByHoldTime | src/services/traders/analysis.js:149-154 | An analysed record qualifies iff its mean hold exists and is at least 12 hours |
| TraderAnalysis.Candidates | src/services/traders/analysis.js:58-71 | At most one record per holder |
| TraderAnalysis.CandidatesFacts | src/services/traders/analysis.js:58-71 | At most one record per holder. Each belongs to a holder with at least 3 grouped entries and carries the score of those entries |
| TraderAnalysis.CandidatesComplete | src/services/traders/analysis.js:60-69 | Every holder with at least 3 grouped entries gets the analysis of those entries, with its own random figures |
| TraderAnalysis.Qualified | src/services/traders/analysis.js:74 | Exactly the qualified records of the input |
| TraderAnalysis.TopTraders | src/services/traders/analysis.js:73-76 | At most 20 records |
| TraderAnalysis.TopTradersFacts | src/services/traders/analysis.js:73-76 | At most 20 records, as many as possible, all qualified and from the input, sorted by score, and a sub-multiset of the qualified records. No qualified record left out outscores one kept |
| TraderAnalysis.ProcessTraders | src/services/traders/analysis.js:33-77 | The method returns the top traders of the grouped and scored holders |
| GigaDegens.HandleFilterChange | src/components/GigaDegens/index.jsx:41-43 | Filter keys not supplied keep their previous values |
| GigaDegens.HandleFilterChangeLaws | src/components/GigaDegens/index.jsx:41-43 | A supplied key overwrites. The same change twice is the change once. Two changes in a row act as their key-by-key combination |
| GigaDegens.FilteredTraders | src/components/GigaDegens/index.jsx:46-61 | No more traders than given |
| GigaDegens.FilteredTradersFacts | src/components/GigaDegens/index.jsx:46-61 | Exactly the traders meeting both thresholds, each as often as in the input. Sorted non-increasing by avgProfit for 'profit', by consistency for 'consistency', by score otherwise |
| PriceWindows.FindLocalMinimum | src/utils/trading.js:1-11 | Over the points' `Block.Time` and `Price`: +Infinity iff no point lies in the inclusive window. Otherwise at most every in-window price and equal to one of them |
| PriceWindows.MaxInWindow | src/utils/trading.js:21-28 | Over the samples' `timestamp` and `price`: None iff no sample lies within the window. Otherwise at least every in-window price and equal to one of them |
| PriceWindows.FindLocalMaximum | src/utils/trading.js:13-29 | None for a missing list or an empty window (24 hours by default). Otherwise the maximum in-window price |
| PriceWindows.WindowsAgree | src/utils/trading.js:1-24 | For one time value, the maximum's \|t − ts\| ≤ w hours test is the minimum's [ts − w, ts + w] test. The two functions read different fields, so this compares the windows, not the lists |
| Formatting.FormatAddress | src/utils/formatting.js:1-3 | The first min(6, n) characters, then "...", then the last min(4, n). Length 13 when n ≥ 6 |
| Sequences.FilterIsSubsequence | src/App.js:307-341 | A filter keeps order and keeps each retained value as many times as the input has it |
| Sequences.SortDesc | src/services/traders/analysis.js:75 | The "b minus a" sort yields a non-increasing permutation of its input |

## Left out

- Network and GraphQL I/O are not modelled: the axios calls and retry
  interceptor, `fetchPriceData`, `fetchData`, and the query-building parts
  of `fetchTopHolders` / `fetchTransactions`. `src/api/index.js` is not part
  of this model. The transfer and holder lists those calls return are
  parameters.
- React rendering, hooks, routing, clipboard and styling are not modelled,
  including FilterControls.jsx, TraderCard.jsx and TraderMetrics.jsx. The
  `filters` state is a value passed to the functions.
- The `Math.random` figures of a trader record (winRate, avgProfit and the
  four metrics) are supplied by a `draw` parameter indexed by holder
  position.
- Floating point, `toFixed`, `toLocaleString`, `parseFloat` and
  `formatNumber` (`src/utils/formatting.js:5-7`) are not modelled. Amounts and percentages are exact reals, and the report keeps
  numbers where the source keeps one-decimal strings.
- The description texts of the trading signal are an enumeration, without
  the formatted percentage they embed.
- Dates are integer milliseconds, so date parsing is not modelled. The
  de-duplication key compares these times and the amounts as numbers,
  where the source compares the raw strings with `===`.
- Non-ASCII lower-casing is not modelled.
- Statistics.CalculateStatistics, TransactionView.FilterTransactions,
  Api.LikelyDEX, Api.IsLikelyDEX, Api.FilterHolders,
  ApiActivity.ProcessTransactions, TraderAnalysis.GroupTrades and
  TraderAnalysis.ProcessTraders: the source calls `.toLowerCase()` on
  `Transfer.Sender`, `Transfer.Receiver` or `Holder.Address` without a
  guard (`src/App.js:181-182`, `src/App.js:308-309`, `src/api.js:45-46`,
  `src/api.js:154`, `src/api.js:313-314`,
  `src/services/traders/analysis.js:38-39` and `:61`). A missing address
  there throws a TypeError. The model does not model the throw: it reads a
  missing address as the empty string and carries on.
- PriceWindows.FindLocalMaximum: `Number(p.price)` is taken to be a
  number. A price that does not parse (NaN) is not modelled.
- NaN arithmetic is not modelled:
  - a transfer lacking an amount makes a running sum NaN. Such transfers
    are skipped where the source skips them, and excluded by a `requires`
    on `ApiActivity.ProcessTransactions`, whose source does not skip them;
  - where NaN only makes a comparison false, it is modelled as `None` (the
    `isLikelyDEX` time window, the mean holding period, the price windows).
- Statistics.CalculateStatistics: `volumeAnalysis.averageBuySize` /
  `averageSellSize` are not modelled (a division by a possibly empty set's
  size, formatted to a string), and neither is the momentum description
  text built from them at lines 204-210. The `stats.volume` copy of
  `totalVolume24h` and the buy-pressure string of `tradingMomentum` are also
  left out. A null `transactions` argument is not modelled; the source
  would throw on it.
- Statistics.CalculateStatistics: the router list is a parameter, because
  `src/App.js` imports `knownDEXAddresses` from a module that does not
  export it.
- Sequences.SortDesc: `Array.prototype.sort` is stable, and ties keep
  their input order. The model proves the result sorted and a permutation,
  but not that ties keep their order.
- Api.Dedup: a transfer without a time sorts as time 0. The source's
  comparator gives NaN there, which leaves the order up to the engine.
- TraderAnalysis.AvgHoldTime: the trades are ordered with a stable sort
  by time; only their times, which the order fixes, enter the result.
- PriceWindows.FindLocalMinimum: `windowHours` is a whole number of hours,
  and a price that is not a number is not modelled.
- `analyzeTransaction` (`src/App.js:241-256`) is not modelled. It only
  logs.
- `getVolatilityLevel` / `getVolatilityDescription` (`src/App.js:9-19`)
  are not modelled. Nothing calls them.
- The `txGroups` and `largeTradesCount` counters of `isLikelyDEX` are
  computed in `Api.IsLikelyDEX`, but no contract mentions them, because the
  verdict never reads them.
- The `transactions` array of each `src/App.js` activity record is not
  modelled. Nothing ever pushes to it.
- The wiring between `App` and the fetch functions is not modelled: a
  rankings map is passed where a time range is expected, and `.filtered`
  is read from an array.

## Findings

| source | as written | input that shows it | evidently intended | confidence | as-written member | corrected member |
|---|---|---|---|---|---|---|
| src/App.js:123-170 | `determineTradingSignal` runs at line 128 on `stats.tradingActivity`, whose percentages are still '0'; lines 165-170 fill them in only afterwards, so the signal is always NEUTRAL | one holder "a" with balance 1000 sending 100 to a non-holder: 10 % of holdings sold, buy pressure 0 | SELLING_PRESSURE / "Heavy selling", computed from the final holdings percentages | high (not executed) | Statistics.SellingScenario | Statistics.IntendedTradingSignal |
