/** The swing-trader analysis of src/services/traders/analysis.js: transfers
    are grouped per address into buy and sell entries, every holder with at
    least three entries is scored, and the qualified traders with the best
    scores are returned. */
module TraderAnalysis {
  import opened Records
  import opened Sequences

  const MinTrades: nat := 3
  /** Hours. */
  const MinHoldingPeriod: int := 12
  const HourMs: real := 3600000.0
  const TopCount: nat := 20

  // ---------------------------------------------------------------------
  // Grouping transfers by trader (lines 37-56)
  // ---------------------------------------------------------------------

  /** The `type` tag the grouping adds to each copy of a transfer. */
  datatype Side = Buy | Sell

  datatype Trade = Trade(tx: Transfer, side: Side)

  /** `get(k).push(e)`, with the list created first when `k` is new. */
  function Push(m: map<string, seq<Trade>>, k: string, e: Trade): map<string, seq<Trade>> {
    m[k := (if k in m then m[k] else []) + [e]]
  }

  function Group(txs: seq<Transfer>): (r: map<string, seq<Trade>>)
    ensures forall a :: a in r ==> r[a] != []
    decreases |txs|
  {
    if txs == [] then map[]
    else
      var t := txs[|txs| - 1];
      Push(Push(Group(txs[..|txs| - 1]), Lower(t.sender), Trade(t, Sell)), Lower(t.receiver), Trade(t, Buy))
  }

  /** `traderTransactions.get(address) || []`. */
  function Lookup(m: map<string, seq<Trade>>, a: string): seq<Trade> {
    if a in m then m[a] else []
  }

  /** The entries of one address, transfer by transfer: a sell entry when
      it sends, then a buy entry when it receives. */
  function TradesOf(a: string, txs: seq<Transfer>): seq<Trade>
    decreases |txs|
  {
    if txs == [] then []
    else
      var t := txs[|txs| - 1];
      TradesOf(a, txs[..|txs| - 1])
        + (if Lower(t.sender) == a then [Trade(t, Sell)] else [])
        + (if Lower(t.receiver) == a then [Trade(t, Buy)] else [])
  }

  function Sends(a: string, txs: seq<Transfer>): nat
    decreases |txs|
  {
    if txs == [] then 0 else Sends(a, txs[..|txs| - 1]) + if Lower(txs[|txs| - 1].sender) == a then 1 else 0
  }

  function Receives(a: string, txs: seq<Transfer>): nat
    decreases |txs|
  {
    if txs == [] then 0 else Receives(a, txs[..|txs| - 1]) + if Lower(txs[|txs| - 1].receiver) == a then 1 else 0
  }

  /** The grouped map holds, for every address, exactly its own entries in
      transfer order, and has a key only for addresses that took part. */
  lemma {:induction false} GroupIsPerAddress(txs: seq<Transfer>, a: string)
    ensures Lookup(Group(txs), a) == TradesOf(a, txs)
    ensures a in Group(txs) <==> TradesOf(a, txs) != []
    decreases |txs|
  {
    if txs != [] {
      GroupIsPerAddress(txs[..|txs| - 1], a);
    }
  }

  /** An address's list holds one entry per transfer it sent and one per
      transfer it received (two for a transfer to itself); each sell entry
      is a transfer it sent and each buy entry one it received. */
  lemma {:induction false} TradesOfFacts(a: string, txs: seq<Transfer>)
    ensures |TradesOf(a, txs)| == Sends(a, txs) + Receives(a, txs)
    ensures forall e :: e in TradesOf(a, txs) ==>
              && e.tx in txs
              && (e.side == Sell ==> Lower(e.tx.sender) == a)
              && (e.side == Buy ==> Lower(e.tx.receiver) == a)
    decreases |txs|
  {
    if txs != [] {
      var pre := txs[..|txs| - 1];
      TradesOfFacts(a, pre);
      assert forall x :: x in pre ==> x in txs;
    }
  }

  /** Creating the missing lists and then pushing onto both is pushing
      onto the sender's list and then onto the receiver's. */
  lemma PushBothSides(m: map<string, seq<Trade>>, sender: string, receiver: string, sell: Trade, buy: Trade)
    ensures var m1 := if sender !in m then m[sender := []] else m;
      var m2 := if receiver !in m1 then m1[receiver := []] else m1;
      var m3 := m2[sender := m2[sender] + [sell]];
      m3[receiver := m3[receiver] + [buy]] == Push(Push(m, sender, sell), receiver, buy)
  {
    var m1 := if sender !in m then m[sender := []] else m;
    var m2 := if receiver !in m1 then m1[receiver := []] else m1;
    var m3 := m2[sender := m2[sender] + [sell]];
    var sold := Push(m, sender, sell);
    assert m3 == if receiver in sold then sold else sold[receiver := []];
  }

  /** Lines 35-56. */
  method GroupTrades(transactions: seq<Transfer>) returns (traderTransactions: map<string, seq<Trade>>)
    ensures traderTransactions == Group(transactions)
  {
    traderTransactions := map[];
    for i := 0 to |transactions|
      invariant traderTransactions == Group(transactions[..i])
    {
      var tx := transactions[i];
      var sender := Lower(tx.sender);
      var receiver := Lower(tx.receiver);
      ghost var before := traderTransactions;
      if sender !in traderTransactions {
        traderTransactions := traderTransactions[sender := []];
      }
      if receiver !in traderTransactions {
        traderTransactions := traderTransactions[receiver := []];
      }
      traderTransactions := traderTransactions[sender := traderTransactions[sender] + [Trade(tx, Sell)]];
      traderTransactions := traderTransactions[receiver := traderTransactions[receiver] + [Trade(tx, Buy)]];
      PushBothSides(before, sender, receiver, Trade(tx, Sell), Trade(tx, Buy));
      assert transactions[..i + 1][..i] == transactions[..i];
    }
    assert transactions[..|transactions|] == transactions;
  }

  // ---------------------------------------------------------------------
  // Holding periods, style and score (lines 79-154)
  // ---------------------------------------------------------------------

  /** `calculateHoldingPeriods` on the trade times in order: 0 for the
      first trade, then the gap to the previous trade in hours. */
  function HoldingPeriods(times: seq<int>): (r: seq<real>)
    ensures |r| == |times|
  {
    seq(|times|, i requires 0 <= i < |times| => if i == 0 then 0.0 else (times[i] - times[i - 1]) as real / HourMs)
  }

  function SumReal(s: seq<real>): real
    decreases |s|
  {
    if s == [] then 0.0 else SumReal(s[..|s| - 1]) + s[|s| - 1]
  }

  predicate Ascending(times: seq<int>) {
    forall i, j :: 0 <= i < j < |times| ==> times[i] <= times[j]
  }

  /** In time order no gap is negative. */
  lemma HoldingPeriodsNonNegative(times: seq<int>)
    requires Ascending(times)
    ensures forall i :: 0 <= i < |times| ==> HoldingPeriods(times)[i] >= 0.0
  {
  }

  /** The gaps add up to the time from the first to the last trade. */
  lemma {:induction false} HoldingPeriodsTelescope(times: seq<int>)
    requires |times| > 0
    ensures SumReal(HoldingPeriods(times)) * HourMs == (times[|times| - 1] - times[0]) as real
    decreases |times|
  {
    var hp := HoldingPeriods(times);
    if |times| == 1 {
      assert hp[..0] == [];
    } else {
      var pre := times[..|times| - 1];
      HoldingPeriodsTelescope(pre);
      assert hp[..|hp| - 1] == HoldingPeriods(pre);
      assert hp[|hp| - 1] * HourMs == (times[|times| - 1] - times[|times| - 2]) as real;
    }
  }

  /** `Math.round`: halves round up. */
  function Round(x: real): (r: int)
    ensures x - 0.5 < r as real <= x + 0.5
  {
    (x + 0.5).Floor
  }

  predicate AllTimed(trades: seq<Trade>) {
    forall i :: 0 <= i < |trades| ==> trades[i].tx.time.Some?
  }

  function TradeTime(e: Trade): int {
    if e.tx.time.Some? then e.tx.time.value else 0
  }

  /** The trade times, earliest first (lines 81-83). */
  function SortedTimes(trades: seq<Trade>): (r: seq<int>)
    ensures |r| == |trades|
    ensures Ascending(r)
  {
    var sorted := SortDesc(trades, e => -TradeTime(e));
    seq(|sorted|, i requires 0 <= i < |sorted| => TradeTime(sorted[i]))
  }

  /** The sorted times are the times of the trades, rearranged. */
  lemma SortedTimesPermutation(trades: seq<Trade>)
    ensures multiset(SortedTimes(trades)) == multiset(Map(trades, TradeTime))
  {
    var sorted := SortDesc(trades, e => -TradeTime(e));
    assert SortedTimes(trades) == Map(sorted, TradeTime);
    MapPermutation(sorted, trades, TradeTime);
  }

  /** Every sorted time is the time of some trade. */
  lemma SortedTimeAttained(trades: seq<Trade>, i: nat)
    requires i < |trades|
    ensures exists k :: 0 <= k < |trades| && TradeTime(trades[k]) == SortedTimes(trades)[i]
  {
    var times := SortedTimes(trades);
    var mapped := Map(trades, TradeTime);
    SortedTimesPermutation(trades);
    assert times[i] in multiset(mapped);
    var k :| 0 <= k < |mapped| && mapped[k] == times[i];
    assert TradeTime(trades[k]) == times[i];
  }

  /** Every trade time lies between the first and the last sorted time. */
  lemma SortedTimeBounds(trades: seq<Trade>, k: nat)
    requires k < |trades|
    ensures var times := SortedTimes(trades);
      times[0] <= TradeTime(trades[k]) <= times[|times| - 1]
  {
    var times := SortedTimes(trades);
    var mapped := Map(trades, TradeTime);
    SortedTimesPermutation(trades);
    assert mapped[k] in multiset(times);
    var m :| 0 <= m < |times| && times[m] == mapped[k];
  }

  /** With every trade timed, the first and last sorted times are the
      earliest and the latest trade times, so the span in `AvgHoldTimeSpan`
      runs from the first trade to the last. */
  lemma SortedTimesEnds(trades: seq<Trade>)
    requires trades != [] && AllTimed(trades)
    ensures var times := SortedTimes(trades);
      && (forall k :: 0 <= k < |trades| ==> times[0] <= trades[k].tx.time.value <= times[|times| - 1])
      && (exists k :: 0 <= k < |trades| && trades[k].tx.time.value == times[0])
      && (exists k :: 0 <= k < |trades| && trades[k].tx.time.value == times[|times| - 1])
  {
    var times := SortedTimes(trades);
    forall k | 0 <= k < |trades| ensures times[0] <= trades[k].tx.time.value <= times[|times| - 1] {
      SortedTimeBounds(trades, k);
    }
    SortedTimeAttained(trades, 0);
    var first :| 0 <= first < |trades| && TradeTime(trades[first]) == times[0];
    assert trades[first].tx.time.value == times[0];
    SortedTimeAttained(trades, |trades| - 1);
    var last :| 0 <= last < |trades| && TradeTime(trades[last]) == times[|times| - 1];
    assert trades[last].tx.time.value == times[|times| - 1];
  }

  /** Lines 86-89: the rounded mean holding period. `None` is the NaN the
      source computes when a trade has no time or there are no trades.
      A single untimed trade is the one input where the two differ: the
      source then divides 0 by 1 and yields 0, not NaN; every caller sees
      at least `MinTrades` trades, so that case never arises. */
  function AvgHoldTime(trades: seq<Trade>): (r: Option<int>)
    ensures r.Some? <==> trades != [] && AllTimed(trades)
  {
    if trades != [] && AllTimed(trades) then
      Some(Round(SumReal(HoldingPeriods(SortedTimes(trades))) / |trades| as real))
    else None
  }

  /** The mean holding period is the span from the first to the last trade
      in hours, shared out over all trades (the first counting 0), and it is
      never negative. */
  lemma {:induction false} AvgHoldTimeSpan(trades: seq<Trade>)
    requires trades != [] && AllTimed(trades)
    ensures var times := SortedTimes(trades);
      && AvgHoldTime(trades) == Some(Round((times[|times| - 1] - times[0]) as real / (HourMs * |trades| as real)))
      && AvgHoldTime(trades).value >= 0
  {
    var times := SortedTimes(trades);
    var sum := SumReal(HoldingPeriods(times));
    var span := (times[|times| - 1] - times[0]) as real;
    assert AvgHoldTime(trades) == Some(Round(sum / |trades| as real));
    HoldingPeriodsTelescope(times);
    assert times[0] <= times[|times| - 1];
    SpanShare(sum, span, |trades| as real);
  }

  lemma SpanShare(sum: real, span: real, n: real)
    requires sum * HourMs == span && n > 0.0 && span >= 0.0
    ensures sum / n == span / (HourMs * n)
    ensures Round(sum / n) == Round(span / (HourMs * n)) >= 0
  {
    assert sum == span / HourMs;
    assert span / (HourMs * n) >= 0.0;
  }

  /** `determineTradingStyle`: three labels, the middle one telling high
      volume (more than 10 trades) from low. */
  function DetermineTradingStyle(trades: seq<Trade>): (r: seq<string>)
    ensures |r| == 3 && r[0] == "Swing Trader" && r[2] == "Quick Exits"
    ensures r[1] == "High Volume" <==> |trades| > 10
    ensures r[1] == "Low Volume" <==> |trades| <= 10
  {
    ["Swing Trader", if |trades| > 10 then "High Volume" else "Low Volume", "Quick Exits"]
  }

  predicate HoldBonus(avgHoldTime: Option<int>) {
    avgHoldTime.Some? && 24 <= avgHoldTime.value <= 168
  }

  /** The score rule without its final cap: 60, plus 2 per trade up to 20,
      plus 20 for a mean hold between one day and one week. */
  function TraderScore(tradeCount: nat, avgHoldTime: Option<int>): (r: int)
    ensures 60 <= r <= 100
  {
    60 + (if tradeCount * 2 < 20 then tradeCount * 2 else 20) + (if HoldBonus(avgHoldTime) then 20 else 0)
  }

  /** `calculateTraderScore`; the cap at 100 never takes effect. */
  method CalculateTraderScore(trades: seq<Trade>, avgHoldTime: Option<int>) returns (score: int)
    ensures score == TraderScore(|trades|, avgHoldTime)
  {
    score := 60;
    score := score + (if |trades| * 2 < 20 then |trades| * 2 else 20);
    if avgHoldTime.Some? && avgHoldTime.value >= 24 && avgHoldTime.value <= 168 {
      score := score + 20;
    }
    score := if score < 100 then score else 100;
  }

  // ---------------------------------------------------------------------
  // Trader records
  // ---------------------------------------------------------------------

  /** The `Math.random` figures of one record, supplied from outside. */
  datatype Placeholders = Placeholders(
    winRate: int, avgProfit: int,
    entryAccuracy: int, exitTiming: int, riskManagement: int, consistencyScore: int)

  datatype Profitability = Profitability(winRate: int, avgProfit: int, avgHoldTime: Option<int>)

  datatype Metrics = Metrics(entryAccuracy: int, exitTiming: int, riskManagement: int, consistencyScore: int)

  datatype Trader = Trader(
    address: string,
    profitability: Profitability,
    tradingStyle: seq<string>,
    score: int,
    metrics: Metrics)

  /** `{ address, ...analyzeTraderPatterns(trades) }`. */
  function Analyze(address: string, trades: seq<Trade>, p: Placeholders): Trader {
    var avgHoldTime := AvgHoldTime(trades);
    Trader(
      address,
      Profitability(p.winRate, p.avgProfit, avgHoldTime),
      DetermineTradingStyle(SortDesc(trades, e => -TradeTime(e))),
      TraderScore(|trades|, avgHoldTime),
      Metrics(p.entryAccuracy, p.exitTiming, p.riskManagement, p.consistencyScore))
  }

  /** Lines 79-116, with the score computed step by step. What the record
      means is stated about its parts: `TraderScore` bounds the score,
      `DetermineTradingStyle` fixes the style labels, and `AvgHoldTimeSpan`
      with `SortedTimesEnds` ties the mean holding period to the first and
      last trade. */
  method AnalyzeTraderPatterns(address: string, trades: seq<Trade>, p: Placeholders) returns (trader: Trader)
    ensures trader == Analyze(address, trades, p)
  {
    var sortedTrades := SortDesc(trades, e => -TradeTime(e));
    var avgHoldTime := AvgHoldTime(trades);
    var tradingStyle := DetermineTradingStyle(sortedTrades);
    var score := CalculateTraderScore(trades, avgHoldTime);
    trader := Trader(
      address,
      Profitability(p.winRate, p.avgProfit, avgHoldTime),
      tradingStyle,
      score,
      Metrics(p.entryAccuracy, p.exitTiming, p.riskManagement, p.consistencyScore));
  }

  /** `isQualifiedTrader`; a NaN mean hold (`None`) fails the comparison. */
  predicate IsQualifiedTrader(t: Trader) {
    t.score >= 60 && t.profitability.avgHoldTime.Some? && t.profitability.avgHoldTime.value >= MinHoldingPeriod
  }

  /** Every analysed record clears the score bar, so only the mean holding
      period decides whether it qualifies. */
  lemma QualifiedByHoldTime(address: string, trades: seq<Trade>, p: Placeholders)
    ensures IsQualifiedTrader(Analyze(address, trades, p)) <==>
              AvgHoldTime(trades).Some? && AvgHoldTime(trades).value >= MinHoldingPeriod
  {
  }

  // ---------------------------------------------------------------------
  // processTraders (lines 33-77)
  // ---------------------------------------------------------------------

  /** The records of lines 59-71: one per holder, in holder order, whose
      lower-cased address has at least three entries; `draw(i)` supplies the
      random figures of the record made for holder `i`. */
  function Candidates(holders: seq<Holder>, groups: map<string, seq<Trade>>, draw: nat -> Placeholders): (r: seq<Trader>)
    ensures |r| <= |holders|
    decreases |holders|
  {
    if holders == [] then []
    else
      var i := |holders| - 1;
      var address := Lower(holders[i].address);
      var trades := Lookup(groups, address);
      Candidates(holders[..i], groups, draw)
        + if |trades| >= MinTrades then [Analyze(address, trades, draw(i))] else []
  }

  /** Every record belongs to a holder with at least three grouped entries
      and is the analysis of exactly those entries. */
  lemma {:induction false} CandidatesFacts(holders: seq<Holder>, groups: map<string, seq<Trade>>, draw: nat -> Placeholders)
    ensures |Candidates(holders, groups, draw)| <= |holders|
    ensures forall t :: t in Candidates(holders, groups, draw) ==>
              && (exists h :: h in holders && Lower(h.address) == t.address)
              && |Lookup(groups, t.address)| >= MinTrades
              && t.score == TraderScore(|Lookup(groups, t.address)|, AvgHoldTime(Lookup(groups, t.address)))
    decreases |holders|
  {
    if holders != [] {
      var pre := holders[..|holders| - 1];
      CandidatesFacts(pre, groups, draw);
      assert forall h :: h in pre ==> h in holders;
      assert holders[|holders| - 1] in holders;
    }
  }

  /** Conversely, every holder with at least three grouped entries gets the
      analysis of those entries, drawn with its own index. */
  lemma {:induction false} CandidatesComplete(holders: seq<Holder>, groups: map<string, seq<Trade>>, draw: nat -> Placeholders)
    ensures forall i :: 0 <= i < |holders| && |Lookup(groups, Lower(holders[i].address))| >= MinTrades ==>
              Analyze(Lower(holders[i].address), Lookup(groups, Lower(holders[i].address)), draw(i)) in Candidates(holders, groups, draw)
    decreases |holders|
  {
    if holders != [] {
      var n := |holders| - 1;
      var pre := holders[..n];
      var earlier := Candidates(pre, groups, draw);
      var all := Candidates(holders, groups, draw);
      var address := Lower(holders[n].address);
      var trades := Lookup(groups, address);
      var tail := if |trades| >= MinTrades then [Analyze(address, trades, draw(n))] else [];
      assert all == earlier + tail;
      CandidatesComplete(pre, groups, draw);
      forall i | 0 <= i < |holders| && |Lookup(groups, Lower(holders[i].address))| >= MinTrades
        ensures Analyze(Lower(holders[i].address), Lookup(groups, Lower(holders[i].address)), draw(i)) in all
      {
        if i < n {
          assert pre[i] == holders[i];
        } else {
          assert tail == [Analyze(address, trades, draw(i))];
        }
      }
    }
  }

  function ByScore(t: Trader): int {
    t.score
  }

  /** `traders.filter(isQualifiedTrader)`. */
  function Qualified(traders: seq<Trader>): (r: seq<Trader>)
    ensures forall t :: t in r <==> t in traders && IsQualifiedTrader(t)
  {
    Filter(traders, t => IsQualifiedTrader(t))
  }

  /** Lines 73-76: the qualified records, best score first, at most 20. */
  function TopTraders(traders: seq<Trader>): (r: seq<Trader>)
    ensures |r| <= TopCount
  {
    JsSlice(SortDesc(Qualified(traders), ByScore), 0, TopCount)
  }

  /** The result holds at most 20 records, all qualified and all from the
      input, best score first; it is as long as it can be, and no qualified
      record left out scores higher than one kept. */
  lemma {:induction false} TopTradersFacts(traders: seq<Trader>)
    ensures var r := TopTraders(traders);
      var qualified := Qualified(traders);
      && |r| == (if |qualified| < TopCount then |qualified| else TopCount)
      && SortedDesc(r, ByScore)
      && (forall t :: t in r ==> t in traders && IsQualifiedTrader(t))
      && (forall t, y :: t in qualified && t !in r && y in r ==> y.score >= t.score)
      && multiset(r) <= multiset(qualified)
  {
    var qualified := Qualified(traders);
    var sorted := SortDesc(qualified, ByScore);
    var n := if |sorted| < TopCount then |sorted| else TopCount;
    assert TopTraders(traders) == sorted[..n];
    TopOfSorted(qualified, sorted, n);
  }

  /** The facts above for the first `n` of any score-sorted rearrangement
      `sorted` of `qualified`. */
  lemma TopOfSorted(qualified: seq<Trader>, sorted: seq<Trader>, n: nat)
    requires multiset(sorted) == multiset(qualified) && SortedDesc(sorted, ByScore) && n <= |sorted|
    ensures SortedDesc(sorted[..n], ByScore)
    ensures forall t :: t in sorted[..n] ==> t in qualified
    ensures forall t, y :: t in qualified && t !in sorted[..n] && y in sorted[..n] ==> y.score >= t.score
    ensures multiset(sorted[..n]) <= multiset(qualified)
  {
    assert forall x :: x in sorted[..n] ==> x in sorted;
    SameMembers(qualified, sorted);
    PrefixOfSorted(sorted, n);
    PrefixMultiset(sorted, n);
  }

  /** The first `n` of a list sorted by score outscore everything after. */
  lemma PrefixOfSorted(sorted: seq<Trader>, n: nat)
    requires SortedDesc(sorted, ByScore) && n <= |sorted|
    ensures forall t, y :: t in sorted && t !in sorted[..n] && y in sorted[..n] ==> y.score >= t.score
  {
    forall t, y | t in sorted && t !in sorted[..n] && y in sorted[..n] ensures y.score >= t.score {
      var j :| 0 <= j < |sorted| && sorted[j] == t;
      var i :| 0 <= i < n && sorted[..n][i] == y;
      assert sorted[..n][i] == sorted[i];
      assert forall k :: 0 <= k < n ==> sorted[k] == sorted[..n][k];
      assert j >= n;
      assert ByScore(sorted[i]) >= ByScore(sorted[j]);
    }
  }

  /** `processTraders(holders, transactions)`. */
  method ProcessTraders(holders: seq<Holder>, transactions: seq<Transfer>, draw: nat -> Placeholders)
    returns (top: seq<Trader>)
    ensures top == TopTraders(Candidates(holders, Group(transactions), draw))
  {
    var traderTransactions := GroupTrades(transactions);
    var traders: seq<Trader> := [];
    for i := 0 to |holders|
      invariant traders == Candidates(holders[..i], traderTransactions, draw)
    {
      var address := Lower(holders[i].address);
      var trades := Lookup(traderTransactions, address);
      if |trades| >= MinTrades {
        var analysis := AnalyzeTraderPatterns(address, trades, draw(i));
        traders := traders + [analysis];
      }
      assert holders[..i + 1][..i] == holders[..i];
    }
    assert holders[..|holders|] == holders;
    top := TopTraders(traders);
  }
}
