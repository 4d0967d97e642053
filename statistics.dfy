/** `calculateStatistics` of src/App.js: the holder balance map, the
    buy/sell ledger folded from the transfers, the volume breakdown, the
    holdings percentages, the trading signal and the router volume
    analysis. */
module Statistics {
  import opened Records
  import opened Addresses
  import opened MapSums
  import opened Sequences

  // ---------------------------------------------------------------------
  // Trading signal (determineTradingSignal)
  // ---------------------------------------------------------------------

  datatype Signal = NEUTRAL | BUYING_PRESSURE | SELLING_PRESSURE

  /** The description texts, without the formatted percentage they embed. */
  datatype Description =
    | NoTradingActivity
    | LightSelling | LightBuying | LightTrading
    | StrongBuying | HeavySelling | BalancedTrading

  datatype TradingSignal = TradingSignal(signal: Signal, description: Description)

  /** SIGNIFICANT_TRADING * 100: the combined percentage of holdings bought
      and sold below which trading counts as light. */
  const SignificantPercent: real := 5.0

  function DetermineTradingSignal(buyPressure: real, percentBought: real, percentSold: real): (r: TradingSignal)
    ensures r.signal == BUYING_PRESSURE <==> percentBought + percentSold >= SignificantPercent && buyPressure > 0.6
    ensures r.signal == SELLING_PRESSURE <==> percentBought + percentSold >= SignificantPercent && buyPressure < 0.4
    ensures r.description in {LightSelling, LightBuying, LightTrading} <==> percentBought + percentSold < SignificantPercent
    ensures r.description == LightSelling <==> percentBought + percentSold < SignificantPercent && buyPressure < 0.4
    ensures r.description == LightBuying <==> percentBought + percentSold < SignificantPercent && buyPressure > 0.6
    ensures r.description != NoTradingActivity
  {
    var total := percentBought + percentSold;
    if total < SignificantPercent then
      TradingSignal(NEUTRAL,
        if buyPressure < 0.4 then LightSelling
        else if buyPressure > 0.6 then LightBuying
        else LightTrading)
    else if buyPressure > 0.6 && total >= SignificantPercent then
      TradingSignal(BUYING_PRESSURE, StrongBuying)
    else if buyPressure < 0.4 && total >= SignificantPercent then
      TradingSignal(SELLING_PRESSURE, HeavySelling)
    else
      TradingSignal(NEUTRAL, BalancedTrading)
  }

  /** The description never contradicts the signal. */
  lemma {:induction false} DescriptionMatchesSignal(buyPressure: real, percentBought: real, percentSold: real)
    ensures var r := DetermineTradingSignal(buyPressure, percentBought, percentSold);
      && (r.description == StrongBuying <==> r.signal == BUYING_PRESSURE)
      && (r.description == HeavySelling <==> r.signal == SELLING_PRESSURE)
      && (r.signal == NEUTRAL <==> r.description in {LightSelling, LightBuying, LightTrading, BalancedTrading})
  {
    var total := percentBought + percentSold;
    if total >= SignificantPercent {
      assert buyPressure > 0.6 || buyPressure < 0.4 || 0.4 <= buyPressure <= 0.6;
    }
  }

  // ---------------------------------------------------------------------
  // Holder balances (lines 85-95)
  // ---------------------------------------------------------------------

  /** A holder with both an address and a balance amount. */
  predicate ValidHolder(h: Holder) {
    h.address != "" && h.balance.Some?
  }

  /** `holderBalances`: lower-cased address to balance, later holders
      overwriting earlier ones with the same address. */
  function Balances(hs: seq<Holder>): map<string, real>
    decreases |hs|
  {
    if hs == [] then map[]
    else
      var m := Balances(hs[..|hs| - 1]);
      var h := hs[|hs| - 1];
      if ValidHolder(h) then m[Lower(h.address) := h.balance.value] else m
  }

  /** Holder `i` is valid, has address `k`, and no later valid holder has. */
  predicate LastWriter(hs: seq<Holder>, k: string, i: int) {
    && 0 <= i < |hs| && ValidHolder(hs[i]) && Lower(hs[i].address) == k
    && forall j :: i < j < |hs| && ValidHolder(hs[j]) ==> Lower(hs[j].address) != k
  }

  /** A last writer in a prefix stays the last writer when the next holder
      does not write the same address. */
  lemma LastWriterExtends(hs: seq<Holder>, k: string, i: int)
    requires hs != []
    requires LastWriter(hs[..|hs| - 1], k, i)
    requires !(ValidHolder(hs[|hs| - 1]) && Lower(hs[|hs| - 1].address) == k)
    ensures LastWriter(hs, k, i)
  {
    var n := |hs| - 1;
    forall j | i < j < |hs| && ValidHolder(hs[j]) ensures Lower(hs[j].address) != k {
      if j < n {
        assert hs[j] == hs[..n][j];
      }
    }
  }

  /** The balance map holds exactly the addresses of valid holders, each with
      the balance of the LAST valid holder that has that address. */
  lemma {:induction false} BalancesLastWins(hs: seq<Holder>, k: string)
    ensures k in Balances(hs) <==>
              exists i :: 0 <= i < |hs| && ValidHolder(hs[i]) && Lower(hs[i].address) == k
    ensures k in Balances(hs) ==>
              exists i :: LastWriter(hs, k, i) && Balances(hs)[k] == hs[i].balance.value
    decreases |hs|
  {
    if hs != [] {
      var n := |hs| - 1;
      var pre := hs[..n];
      BalancesLastWins(pre, k);
      if ValidHolder(hs[n]) && Lower(hs[n].address) == k {
        assert LastWriter(hs, k, n);
      } else {
        assert Balances(hs) == Balances(pre) || Balances(hs) == Balances(pre)[Lower(hs[n].address) := hs[n].balance.value];
        assert k in Balances(hs) <==> k in Balances(pre);
        if k in Balances(pre) {
          var i :| LastWriter(pre, k, i) && Balances(pre)[k] == pre[i].balance.value;
          LastWriterExtends(hs, k, i);
          assert Balances(hs)[k] == hs[i].balance.value;
        } else {
          forall i | 0 <= i < |hs| && ValidHolder(hs[i]) ensures Lower(hs[i].address) != k {
            if i < n {
              assert hs[i] == pre[i];
            }
          }
        }
      }
    }
  }

  /** Non-negative balances give non-negative total holdings. */
  lemma {:induction false} TotalHoldingsNonNegative(hs: seq<Holder>)
    requires forall i :: 0 <= i < |hs| && ValidHolder(hs[i]) ==> hs[i].balance.value >= 0.0
    ensures MapSum(Balances(hs)) >= 0.0
  {
    forall k | k in Balances(hs) ensures Balances(hs)[k] >= 0.0 {
      BalancesLastWins(hs, k);
    }
    MapSumNonNegative(Balances(hs));
  }

  // ---------------------------------------------------------------------
  // The buy/sell ledger (lines 97-120)
  // ---------------------------------------------------------------------

  /** A transfer with an amount, a sender and a receiver: the others are
      skipped. */
  predicate Counted(t: Transfer) {
    t.amount.Some? && t.sender != "" && t.receiver != ""
  }

  /** The running totals, the `uniqueBuyers` / `uniqueSellers` sets and the
      per-holder `holderBuyVolumes` / `holderSellVolumes` maps. */
  datatype Ledger = Ledger(
    buyTotal: real,
    sellTotal: real,
    buyers: set<string>,
    sellers: set<string>,
    buyVolumes: map<string, real>,
    sellVolumes: map<string, real>)

  const EmptyLedger: Ledger := Ledger(0.0, 0.0, {}, {}, map[], map[])

  function Credit(m: map<string, real>, k: string, amount: real): map<string, real> {
    m[k := (if k in m then m[k] else 0.0) + amount]
  }

  /** The effect of one transfer: a sell for a holder sender, a buy for a
      holder receiver, both for a transfer between two holders. */
  function Record(balances: map<string, real>, l: Ledger, t: Transfer): Ledger {
    if !Counted(t) then l
    else
      var amount, sender, receiver := t.amount.value, Lower(t.sender), Lower(t.receiver);
      var l1 :=
        if sender in balances then
          l.(sellTotal := l.sellTotal + amount,
             sellers := l.sellers + {sender},
             sellVolumes := Credit(l.sellVolumes, sender, amount))
        else l;
      if receiver in balances then
        l1.(buyTotal := l1.buyTotal + amount,
            buyers := l1.buyers + {receiver},
            buyVolumes := Credit(l1.buyVolumes, receiver, amount))
      else l1
  }

  function Tally(balances: map<string, real>, txs: seq<Transfer>): Ledger
    decreases |txs|
  {
    if txs == [] then EmptyLedger
    else Record(balances, Tally(balances, txs[..|txs| - 1]), txs[|txs| - 1])
  }

  /** Amount sent by address `a` over the counted transfers. */
  function SentBy(a: string, txs: seq<Transfer>): real
    decreases |txs|
  {
    if txs == [] then 0.0
    else
      var t := txs[|txs| - 1];
      SentBy(a, txs[..|txs| - 1]) + if Counted(t) && Lower(t.sender) == a then t.amount.value else 0.0
  }

  /** Amount received by address `a` over the counted transfers. */
  function ReceivedBy(a: string, txs: seq<Transfer>): real
    decreases |txs|
  {
    if txs == [] then 0.0
    else
      var t := txs[|txs| - 1];
      ReceivedBy(a, txs[..|txs| - 1]) + if Counted(t) && Lower(t.receiver) == a then t.amount.value else 0.0
  }

  /** Lower-cased senders of the counted transfers. */
  function Senders(txs: seq<Transfer>): set<string>
    decreases |txs|
  {
    if txs == [] then {}
    else
      var t := txs[|txs| - 1];
      Senders(txs[..|txs| - 1]) + if Counted(t) then {Lower(t.sender)} else {}
  }

  /** Lower-cased receivers of the counted transfers. */
  function Receivers(txs: seq<Transfer>): set<string>
    decreases |txs|
  {
    if txs == [] then {}
    else
      var t := txs[|txs| - 1];
      Receivers(txs[..|txs| - 1]) + if Counted(t) then {Lower(t.receiver)} else {}
  }

  /** A sender that sent nothing counted has sent 0. */
  lemma {:induction false} SentByNonSender(a: string, txs: seq<Transfer>)
    requires a !in Senders(txs)
    ensures SentBy(a, txs) == 0.0
    decreases |txs|
  {
    if txs != [] {
      SentByNonSender(a, txs[..|txs| - 1]);
    }
  }

  lemma {:induction false} ReceivedByNonReceiver(a: string, txs: seq<Transfer>)
    requires a !in Receivers(txs)
    ensures ReceivedBy(a, txs) == 0.0
    decreases |txs|
  {
    if txs != [] {
      ReceivedByNonReceiver(a, txs[..|txs| - 1]);
    }
  }

  /** What one transfer does to the sell side of the ledger. */
  lemma RecordSellSide(balances: map<string, real>, l: Ledger, t: Transfer)
    ensures var l' := Record(balances, l, t);
      if Counted(t) && Lower(t.sender) in balances then
        && l'.sellTotal == l.sellTotal + t.amount.value
        && l'.sellers == l.sellers + {Lower(t.sender)}
        && l'.sellVolumes == Credit(l.sellVolumes, Lower(t.sender), t.amount.value)
      else
        l'.sellTotal == l.sellTotal && l'.sellers == l.sellers && l'.sellVolumes == l.sellVolumes
  {
  }

  /** What one transfer does to the buy side of the ledger. */
  lemma RecordBuySide(balances: map<string, real>, l: Ledger, t: Transfer)
    ensures var l' := Record(balances, l, t);
      if Counted(t) && Lower(t.receiver) in balances then
        && l'.buyTotal == l.buyTotal + t.amount.value
        && l'.buyers == l.buyers + {Lower(t.receiver)}
        && l'.buyVolumes == Credit(l.buyVolumes, Lower(t.receiver), t.amount.value)
      else
        l'.buyTotal == l.buyTotal && l'.buyers == l.buyers && l'.buyVolumes == l.buyVolumes
  {
  }

  /** The sell-side invariant of the ledger `l` built from `txs`. */
  ghost predicate SellSideInv(balances: map<string, real>, l: Ledger, txs: seq<Transfer>) {
    && l.sellers == l.sellVolumes.Keys == Senders(txs) * balances.Keys
    && (forall a :: a in l.sellVolumes ==> l.sellVolumes[a] == SentBy(a, txs))
    && MapSum(l.sellVolumes) == l.sellTotal
  }

  /** The buy-side invariant of the ledger `l` built from `txs`. */
  ghost predicate BuySideInv(balances: map<string, real>, l: Ledger, txs: seq<Transfer>) {
    && l.buyers == l.buyVolumes.Keys == Receivers(txs) * balances.Keys
    && (forall a :: a in l.buyVolumes ==> l.buyVolumes[a] == ReceivedBy(a, txs))
    && MapSum(l.buyVolumes) == l.buyTotal
  }

  /** A transfer counted on the sell side adds its amount to that party. */
  lemma SellSideGrow(balances: map<string, real>, l0: Ledger, txs: seq<Transfer>)
    requires txs != []
    requires SellSideInv(balances, l0, txs[..|txs| - 1])
    requires Counted(txs[|txs| - 1]) && Lower(txs[|txs| - 1].sender) in balances
    ensures SellSideInv(balances, Record(balances, l0, txs[|txs| - 1]), txs)
  {
    var pre, t := txs[..|txs| - 1], txs[|txs| - 1];
    var l := Record(balances, l0, t);
    var s := Lower(t.sender);
    RecordSellSide(balances, l0, t);
    var old_ := if s in l0.sellVolumes then l0.sellVolumes[s] else 0.0;
    MapSumUpdate(l0.sellVolumes, s, old_ + t.amount.value);
    if s !in l0.sellVolumes {
      SentByNonSender(s, pre);
    }
    assert Senders(txs) == Senders(pre) + {s};
    assert l.sellVolumes.Keys == l0.sellVolumes.Keys + {s};
    assert l.sellers == l.sellVolumes.Keys == Senders(txs) * balances.Keys;
    assert MapSum(l.sellVolumes) == l.sellTotal;
    SellValuesGrow(l0.sellVolumes, txs);
  }

  /** Crediting the counted sender keeps every per-holder value equal to
      that holder's own total. */
  lemma SellValuesGrow(vols: map<string, real>, txs: seq<Transfer>)
    requires txs != [] && Counted(txs[|txs| - 1])
    requires forall a :: a in vols ==> vols[a] == SentBy(a, txs[..|txs| - 1])
    requires Lower(txs[|txs| - 1].sender) !in vols ==> SentBy(Lower(txs[|txs| - 1].sender), txs[..|txs| - 1]) == 0.0
    ensures var t := txs[|txs| - 1];
      var v := Credit(vols, Lower(t.sender), t.amount.value);
      forall a :: a in v ==> v[a] == SentBy(a, txs)
  {
    var pre, t := txs[..|txs| - 1], txs[|txs| - 1];
    var s := Lower(t.sender);
    var v := Credit(vols, s, t.amount.value);
    forall a | a in v ensures v[a] == SentBy(a, txs) {
      assert SentBy(a, txs) == SentBy(a, pre) + if a == s then t.amount.value else 0.0;
    }
  }

  /** Any other transfer leaves the sell side as it was. */
  lemma SellSideSame(balances: map<string, real>, l0: Ledger, txs: seq<Transfer>)
    requires txs != []
    requires SellSideInv(balances, l0, txs[..|txs| - 1])
    requires !(Counted(txs[|txs| - 1]) && Lower(txs[|txs| - 1].sender) in balances)
    ensures SellSideInv(balances, Record(balances, l0, txs[|txs| - 1]), txs)
  {
    var pre, t := txs[..|txs| - 1], txs[|txs| - 1];
    var l := Record(balances, l0, t);
    RecordSellSide(balances, l0, t);
    assert Senders(txs) * balances.Keys == Senders(pre) * balances.Keys;
    forall a | a in l.sellVolumes ensures l.sellVolumes[a] == SentBy(a, txs) {
      assert SentBy(a, txs) == SentBy(a, pre);
    }
  }

  /** One more transfer keeps the sell-side invariant. */
  lemma SellSideStep(balances: map<string, real>, l0: Ledger, txs: seq<Transfer>)
    requires txs != []
    requires SellSideInv(balances, l0, txs[..|txs| - 1])
    ensures SellSideInv(balances, Record(balances, l0, txs[|txs| - 1]), txs)
  {
    if Counted(txs[|txs| - 1]) && Lower(txs[|txs| - 1].sender) in balances {
      SellSideGrow(balances, l0, txs);
    } else {
      SellSideSame(balances, l0, txs);
    }
  }

  /** A transfer counted on the buy side adds its amount to that party. */
  lemma BuySideGrow(balances: map<string, real>, l0: Ledger, txs: seq<Transfer>)
    requires txs != []
    requires BuySideInv(balances, l0, txs[..|txs| - 1])
    requires Counted(txs[|txs| - 1]) && Lower(txs[|txs| - 1].receiver) in balances
    ensures BuySideInv(balances, Record(balances, l0, txs[|txs| - 1]), txs)
  {
    var pre, t := txs[..|txs| - 1], txs[|txs| - 1];
    var l := Record(balances, l0, t);
    var r := Lower(t.receiver);
    RecordBuySide(balances, l0, t);
    var old_ := if r in l0.buyVolumes then l0.buyVolumes[r] else 0.0;
    MapSumUpdate(l0.buyVolumes, r, old_ + t.amount.value);
    if r !in l0.buyVolumes {
      ReceivedByNonReceiver(r, pre);
    }
    assert Receivers(txs) == Receivers(pre) + {r};
    assert l.buyVolumes.Keys == l0.buyVolumes.Keys + {r};
    assert l.buyers == l.buyVolumes.Keys == Receivers(txs) * balances.Keys;
    assert MapSum(l.buyVolumes) == l.buyTotal;
    BuyValuesGrow(l0.buyVolumes, txs);
  }

  /** Crediting the counted receiver keeps every per-holder value equal to
      that holder's own total. */
  lemma BuyValuesGrow(vols: map<string, real>, txs: seq<Transfer>)
    requires txs != [] && Counted(txs[|txs| - 1])
    requires forall a :: a in vols ==> vols[a] == ReceivedBy(a, txs[..|txs| - 1])
    requires Lower(txs[|txs| - 1].receiver) !in vols ==> ReceivedBy(Lower(txs[|txs| - 1].receiver), txs[..|txs| - 1]) == 0.0
    ensures var t := txs[|txs| - 1];
      var v := Credit(vols, Lower(t.receiver), t.amount.value);
      forall a :: a in v ==> v[a] == ReceivedBy(a, txs)
  {
    var pre, t := txs[..|txs| - 1], txs[|txs| - 1];
    var r := Lower(t.receiver);
    var v := Credit(vols, r, t.amount.value);
    forall a | a in v ensures v[a] == ReceivedBy(a, txs) {
      assert ReceivedBy(a, txs) == ReceivedBy(a, pre) + if a == r then t.amount.value else 0.0;
    }
  }

  /** Any other transfer leaves the buy side as it was. */
  lemma BuySideSame(balances: map<string, real>, l0: Ledger, txs: seq<Transfer>)
    requires txs != []
    requires BuySideInv(balances, l0, txs[..|txs| - 1])
    requires !(Counted(txs[|txs| - 1]) && Lower(txs[|txs| - 1].receiver) in balances)
    ensures BuySideInv(balances, Record(balances, l0, txs[|txs| - 1]), txs)
  {
    var pre, t := txs[..|txs| - 1], txs[|txs| - 1];
    var l := Record(balances, l0, t);
    RecordBuySide(balances, l0, t);
    assert Receivers(txs) * balances.Keys == Receivers(pre) * balances.Keys;
    forall a | a in l.buyVolumes ensures l.buyVolumes[a] == ReceivedBy(a, txs) {
      assert ReceivedBy(a, txs) == ReceivedBy(a, pre);
    }
  }

  /** One more transfer keeps the buy-side invariant. */
  lemma BuySideStep(balances: map<string, real>, l0: Ledger, txs: seq<Transfer>)
    requires txs != []
    requires BuySideInv(balances, l0, txs[..|txs| - 1])
    ensures BuySideInv(balances, Record(balances, l0, txs[|txs| - 1]), txs)
  {
    if Counted(txs[|txs| - 1]) && Lower(txs[|txs| - 1].receiver) in balances {
      BuySideGrow(balances, l0, txs);
    } else {
      BuySideSame(balances, l0, txs);
    }
  }

  /** The sell side of the ledger after any transfer sequence: the sellers
      are exactly the holders that sent, are the key set of the per-holder
      map, and never include an untracked address; each per-holder value is
      that holder's own total; and the per-holder values add up to the
      running total, so no transfer is counted twice. */
  lemma {:induction false} TallySellSide(balances: map<string, real>, txs: seq<Transfer>)
    ensures var l := Tally(balances, txs);
      && l.sellers == l.sellVolumes.Keys == Senders(txs) * balances.Keys
      && (forall a :: a in l.sellVolumes ==> l.sellVolumes[a] == SentBy(a, txs))
      && MapSum(l.sellVolumes) == l.sellTotal
    decreases |txs|
  {
    if txs == [] {
      assert MapSum(map[]) == 0.0;
    } else {
      TallySellSide(balances, txs[..|txs| - 1]);
      SellSideStep(balances, Tally(balances, txs[..|txs| - 1]), txs);
    }
  }

  /** The buy side, symmetrically. */
  lemma {:induction false} TallyBuySide(balances: map<string, real>, txs: seq<Transfer>)
    ensures var l := Tally(balances, txs);
      && l.buyers == l.buyVolumes.Keys == Receivers(txs) * balances.Keys
      && (forall a :: a in l.buyVolumes ==> l.buyVolumes[a] == ReceivedBy(a, txs))
      && MapSum(l.buyVolumes) == l.buyTotal
    decreases |txs|
  {
    if txs == [] {
      assert MapSum(map[]) == 0.0;
    } else {
      TallyBuySide(balances, txs[..|txs| - 1]);
      BuySideStep(balances, Tally(balances, txs[..|txs| - 1]), txs);
    }
  }

  // ---------------------------------------------------------------------
  // Router volume analysis (lines 172-202)
  // ---------------------------------------------------------------------

  /** A router that is not a pool: the side that marks a buy or a sell in
      the volume analysis. */
  predicate RouterNotPool(routers: seq<string>, address: string) {
    IsDEXAddress(routers, Lower(address)) && !IsPoolAddress(Lower(address))
  }

  /** Lines 186-188: a buy comes from a router and goes to a non-router. */
  function BuySide(routers: seq<string>): Transfer -> bool {
    t => Complete(t) && RouterNotPool(routers, t.sender) && !RouterNotPool(routers, t.receiver)
  }

  /** Lines 189-191: a sell goes from a non-router to a router. */
  function SellSide(routers: seq<string>): Transfer -> bool {
    t => Complete(t) && !RouterNotPool(routers, t.sender) && RouterNotPool(routers, t.receiver)
  }

  /** The summed amounts of a transfer list (absent amounts count 0). */
  function TotalAmount(txs: seq<Transfer>): real
    decreases |txs|
  {
    if txs == [] then 0.0
    else
      var t := txs[|txs| - 1];
      TotalAmount(txs[..|txs| - 1]) + if t.amount.Some? then t.amount.value else 0.0
  }

  /** One more transfer adds its amount to a filtered total exactly when
      the filter keeps it. */
  lemma FilteredAmountStep(pre: seq<Transfer>, t: Transfer, p: Transfer -> bool)
    ensures TotalAmount(Filter(pre + [t], p)) ==
      TotalAmount(Filter(pre, p)) + if p(t) && t.amount.Some? then t.amount.value else 0.0
  {
    FilterConcat(pre, [t], p);
    assert [t][1..] == [];
    var kept := Filter(pre, p);
    if p(t) {
      assert Filter(pre + [t], p) == kept + [t];
      assert (kept + [t])[..|kept|] == kept;
    } else {
      assert Filter(pre + [t], p) == kept;
    }
  }

  /** (totalBuyVolume, totalSellVolume) of `volumeAnalysis`: transfers with
      an amount and a time, bought from a router or sold to one, but not
      between two routers. */
  function RouterVolumes(routers: seq<string>, txs: seq<Transfer>): (real, real)
    decreases |txs|
  {
    if txs == [] then (0.0, 0.0)
    else
      var (b, s) := RouterVolumes(routers, txs[..|txs| - 1]);
      var t := txs[|txs| - 1];
      if !Complete(t) then (b, s)
      else
        var senderIsRouter := RouterNotPool(routers, t.sender);
        var receiverIsRouter := RouterNotPool(routers, t.receiver);
        if senderIsRouter && !receiverIsRouter then (b + t.amount.value, s)
        else if !senderIsRouter && receiverIsRouter then (b, s + t.amount.value)
        else (b, s)
  }

  /** The buy volume is the total amount of the complete transfers from a
      router to a non-router. */
  lemma {:induction false} RouterBuyVolume(routers: seq<string>, txs: seq<Transfer>)
    ensures RouterVolumes(routers, txs).0 == TotalAmount(Filter(txs, BuySide(routers)))
    decreases |txs|
  {
    if txs != [] {
      var pre, t := txs[..|txs| - 1], txs[|txs| - 1];
      RouterBuyVolume(routers, pre);
      assert txs == pre + [t];
      FilteredAmountStep(pre, t, BuySide(routers));
    }
  }

  /** The sell volume is the total amount of the complete transfers from a
      non-router to a router. */
  lemma {:induction false} RouterSellVolume(routers: seq<string>, txs: seq<Transfer>)
    ensures RouterVolumes(routers, txs).1 == TotalAmount(Filter(txs, SellSide(routers)))
    decreases |txs|
  {
    if txs != [] {
      var pre, t := txs[..|txs| - 1], txs[|txs| - 1];
      RouterSellVolume(routers, pre);
      assert txs == pre + [t];
      FilteredAmountStep(pre, t, SellSide(routers));
    }
  }

  /** Amount of the complete transfers that have a router on exactly one
      side. */
  function OneSidedRouterVolume(routers: seq<string>, txs: seq<Transfer>): real
    decreases |txs|
  {
    if txs == [] then 0.0
    else
      var t := txs[|txs| - 1];
      OneSidedRouterVolume(routers, txs[..|txs| - 1]) +
        if Complete(t) && (RouterNotPool(routers, t.sender) != RouterNotPool(routers, t.receiver))
        then t.amount.value else 0.0
  }

  /** Together the two volumes are the total of the transfers with a
      router on one side only: a router-to-router transfer counts in
      neither. */
  lemma {:induction false} RouterVolumesSplit(routers: seq<string>, txs: seq<Transfer>)
    ensures RouterVolumes(routers, txs).0 + RouterVolumes(routers, txs).1 == OneSidedRouterVolume(routers, txs)
    decreases |txs|
  {
    if txs != [] {
      RouterVolumesSplit(routers, txs[..|txs| - 1]);
    }
  }

  datatype VolumeAnalysis = VolumeAnalysis(
    totalBuyVolume: real,
    totalSellVolume: real,
    buyToSellRatio: Option<real>)

  // ---------------------------------------------------------------------
  // The report
  // ---------------------------------------------------------------------

  datatype Statistics = Statistics(
    tokenSymbol: string,
    totalHolders: nat,
    totalHoldings: real,
    totalBuyVolume24h: real,
    totalSellVolume24h: real,
    totalVolume24h: real,
    uniqueBuyers: set<string>,
    uniqueSellers: set<string>,
    buyShare: real,                   // volumeBreakdown.buys, in percent
    sellShare: real,                  // volumeBreakdown.sells, in percent
    percentOfHoldingsBought: real,
    percentOfHoldingsSold: real,
    averageBuyerPercentage: real,
    averageSellerPercentage: real,
    buyPressure: real,                // tradingMomentum.buyPressure, as a fraction
    tradingSignal: TradingSignal,
    volumeAnalysis: VolumeAnalysis)

  /** Each holder's traded volume as a percentage of its balance (0 for a
      holder whose balance is not positive). */
  function Percentages(volumes: map<string, real>, balances: map<string, real>): (r: map<string, real>)
    ensures r.Keys == volumes.Keys
  {
    map a | a in volumes :: if a in balances && balances[a] > 0.0 then volumes[a] / balances[a] * 100.0 else 0.0
  }

  ghost function AveragePercentage(volumes: map<string, real>, balances: map<string, real>, count: nat): real {
    if count > 0 then MapSum(Percentages(volumes, balances)) / count as real else 0.0
  }

  function TokenSymbol(hs: seq<Holder>): string {
    if |hs| > 0 && hs[0].symbol != "" then hs[0].symbol else "tokens"
  }

  /** The report `calculateStatistics` returns for an array of holders. The
      trading signal is computed from the holdings percentages as they stand
      at line 128, which is before lines 165-170 write them. */
  ghost function Stats(hs: seq<Holder>, txs: seq<Transfer>, routers: seq<string>): Statistics {
    var balances := Balances(hs);
    var totalHoldings := MapSum(balances);
    var l := Tally(balances, txs);
    var total := l.buyTotal + l.sellTotal;
    var pressure := if total > 0.0 then l.buyTotal / total else 0.0;
    var (dexBuy, dexSell) := RouterVolumes(routers, txs);
    Statistics(
      TokenSymbol(hs),
      |hs|,
      totalHoldings,
      l.buyTotal,
      l.sellTotal,
      total,
      l.buyers,
      l.sellers,
      if total > 0.0 then l.buyTotal / total * 100.0 else 0.0,
      if total > 0.0 then l.sellTotal / total * 100.0 else 0.0,
      if totalHoldings > 0.0 then l.buyTotal / totalHoldings * 100.0 else 0.0,
      if totalHoldings > 0.0 then l.sellTotal / totalHoldings * 100.0 else 0.0,
      AveragePercentage(l.buyVolumes, balances, |l.buyers|),
      AveragePercentage(l.sellVolumes, balances, |l.sellers|),
      pressure,
      if total > 0.0 then DetermineTradingSignal(pressure, 0.0, 0.0)
      else TradingSignal(NEUTRAL, NoTradingActivity),
      VolumeAnalysis(dexBuy, dexSell, if dexSell > 0.0 then Some(dexBuy / dexSell) else None))
  }

  /** The totals of the report are the tracked sums of the transfers, the
      buyer and seller sets are the holders that took part, and the volume
      is the sum of both sides. */
  lemma {:induction false} StatsTotals(hs: seq<Holder>, txs: seq<Transfer>, routers: seq<string>)
    ensures var s := Stats(hs, txs, routers);
      && s.totalVolume24h == s.totalBuyVolume24h + s.totalSellVolume24h
      && s.uniqueSellers == Senders(txs) * Balances(hs).Keys
      && s.uniqueBuyers == Receivers(txs) * Balances(hs).Keys
      && (forall a :: a in s.uniqueSellers ==> a in Balances(hs))
      && (forall a :: a in s.uniqueBuyers ==> a in Balances(hs))
      && s.totalSellVolume24h == MapSum(Tally(Balances(hs), txs).sellVolumes)
      && s.totalBuyVolume24h == MapSum(Tally(Balances(hs), txs).buyVolumes)
  {
    TallySellSide(Balances(hs), txs);
    TallyBuySide(Balances(hs), txs);
  }

  /** The signal `calculateStatistics` reports is NEUTRAL for every input:
      at line 128 both holdings percentages are still 0, so the combined
      percentage is below the significance threshold. */
  lemma {:induction false} StatsSignalAlwaysNeutral(hs: seq<Holder>, txs: seq<Transfer>, routers: seq<string>)
    ensures Stats(hs, txs, routers).tradingSignal.signal == NEUTRAL
    ensures Stats(hs, txs, routers).tradingSignal.description != BalancedTrading
  {
    var s := Stats(hs, txs, routers);
    if s.totalVolume24h > 0.0 {
      assert s.tradingSignal == DetermineTradingSignal(s.buyPressure, 0.0, 0.0);
    }
  }

  // ---------------------------------------------------------------------
  // The imperative computation
  // ---------------------------------------------------------------------

  /** `holderBuyVolumes.forEach(...)`: adds up the percentage of holdings
      each holder bought (or sold), skipping holders without a positive
      balance. */
  method SumPercentages(volumes: map<string, real>, balances: map<string, real>) returns (total: real)
    ensures total == MapSum(Percentages(volumes, balances))
  {
    var rest := volumes;
    total := 0.0;
    while rest != map[]
      invariant rest.Keys <= volumes.Keys
      invariant total + MapSum(Percentages(rest, balances)) == MapSum(Percentages(volumes, balances))
      decreases |rest|
    {
      var a :| a in rest;
      var balance := if a in balances then balances[a] else 0.0;
      MapSumRemove(Percentages(rest, balances), a);
      assert Percentages(rest, balances) - {a} == Percentages(rest - {a}, balances);
      if balance > 0.0 {
        total := total + rest[a] / balance * 100.0;
      }
      rest := rest - {a};
    }
  }

  /** Lines 85-93: the `holderBalances` map. */
  method BuildBalances(hs: seq<Holder>) returns (balances: map<string, real>)
    ensures balances == Balances(hs)
  {
    balances := map[];
    var i := 0;
    while i < |hs|
      invariant 0 <= i <= |hs|
      invariant balances == Balances(hs[..i])
    {
      var h := hs[i];
      if h.address != "" && h.balance.Some? {
        balances := balances[Lower(h.address) := h.balance.value];
      }
      assert hs[..i + 1][..i] == hs[..i];
      i := i + 1;
    }
    assert hs[..|hs|] == hs;
  }

  /** Lines 97-118: the running totals, buyer and seller sets and
      per-holder volume maps. */
  method TallyTransfers(balances: map<string, real>, txs: seq<Transfer>) returns (l: Ledger)
    ensures l == Tally(balances, txs)
  {
    var totalBuy, totalSell := 0.0, 0.0;
    var buyers: set<string>, sellers: set<string> := {}, {};
    var buyVolumes: map<string, real>, sellVolumes: map<string, real> := map[], map[];
    var j := 0;
    while j < |txs|
      invariant 0 <= j <= |txs|
      invariant Ledger(totalBuy, totalSell, buyers, sellers, buyVolumes, sellVolumes) == Tally(balances, txs[..j])
    {
      var tx := txs[j];
      if tx.amount.Some? && tx.sender != "" && tx.receiver != "" {
        var amount := tx.amount.value;
        var sender := Lower(tx.sender);
        var receiver := Lower(tx.receiver);
        if sender in balances {
          totalSell := totalSell + amount;
          sellers := sellers + {sender};
          sellVolumes := sellVolumes[sender := (if sender in sellVolumes then sellVolumes[sender] else 0.0) + amount];
        }
        if receiver in balances {
          totalBuy := totalBuy + amount;
          buyers := buyers + {receiver};
          buyVolumes := buyVolumes[receiver := (if receiver in buyVolumes then buyVolumes[receiver] else 0.0) + amount];
        }
      }
      assert txs[..j + 1][..j] == txs[..j];
      j := j + 1;
    }
    assert txs[..|txs|] == txs;
    l := Ledger(totalBuy, totalSell, buyers, sellers, buyVolumes, sellVolumes);
  }

  /** Lines 173-193: the router buy and sell volumes. */
  method AnalyseRouterVolumes(routers: seq<string>, txs: seq<Transfer>) returns (dexBuy: real, dexSell: real)
    ensures (dexBuy, dexSell) == RouterVolumes(routers, txs)
  {
    dexBuy, dexSell := 0.0, 0.0;
    var k := 0;
    while k < |txs|
      invariant 0 <= k <= |txs|
      invariant (dexBuy, dexSell) == RouterVolumes(routers, txs[..k])
    {
      var tx := txs[k];
      if tx.amount.Some? && tx.time.Some? {
        var senderIsRouter := IsDEXAddress(routers, Lower(tx.sender)) && !IsPoolAddress(Lower(tx.sender));
        var receiverIsRouter := IsDEXAddress(routers, Lower(tx.receiver)) && !IsPoolAddress(Lower(tx.receiver));
        if senderIsRouter && !receiverIsRouter {
          dexBuy := dexBuy + tx.amount.value;
        } else if !senderIsRouter && receiverIsRouter {
          dexSell := dexSell + tx.amount.value;
        }
      }
      assert txs[..k + 1][..k] == txs[..k];
      k := k + 1;
    }
    assert txs[..|txs|] == txs;
  }

  /** `calculateStatistics(holders, transactions)`; `holders == None` stands
      for a holders argument that is null or not an array. */
  method CalculateStatistics(holders: Option<seq<Holder>>, txs: seq<Transfer>, routers: seq<string>)
    returns (r: Option<Statistics>)
    ensures holders.None? <==> r.None?
    ensures holders.Some? ==> r == Some(Stats(holders.value, txs, routers))
    ensures r.Some? ==> r.value.tradingSignal.signal == NEUTRAL
    ensures r.Some? && r.value.totalVolume24h <= 0.0 ==>
              r.value.buyShare == r.value.sellShare == 0.0
              && r.value.tradingSignal == TradingSignal(NEUTRAL, NoTradingActivity)
    ensures r.Some? && txs == [] ==>
              r.value.totalVolume24h == 0.0
              && r.value.tradingSignal == TradingSignal(NEUTRAL, NoTradingActivity)
  {
    if holders.None? {
      return None;
    }
    var hs := holders.value;

    var balances := BuildBalances(hs);
    var totalHoldings := SumValues(balances);
    var ledger := TallyTransfers(balances, txs);
    var totalBuy, totalSell, buyers, sellers := ledger.buyTotal, ledger.sellTotal, ledger.buyers, ledger.sellers;
    var buyVolumes, sellVolumes := ledger.buyVolumes, ledger.sellVolumes;

    var totalVolume := totalBuy + totalSell;
    // the tradingActivity percentages still hold their initial '0' here
    var percentBought, percentSold := 0.0, 0.0;
    var buyShare, sellShare, pressure := 0.0, 0.0, 0.0;
    var signal := TradingSignal(NEUTRAL, NoTradingActivity);
    if totalVolume > 0.0 {
      buyShare := totalBuy / totalVolume * 100.0;
      sellShare := totalSell / totalVolume * 100.0;
      pressure := totalBuy / totalVolume;
      signal := DetermineTradingSignal(pressure, percentBought, percentSold);
    }

    var buyerPercentages := SumPercentages(buyVolumes, balances);
    var sellerPercentages := SumPercentages(sellVolumes, balances);
    var averageBuyer := if |buyers| > 0 then buyerPercentages / |buyers| as real else 0.0;
    var averageSeller := if |sellers| > 0 then sellerPercentages / |sellers| as real else 0.0;

    if totalHoldings > 0.0 {
      percentBought := totalBuy / totalHoldings * 100.0;
      percentSold := totalSell / totalHoldings * 100.0;
    }

    var dexBuy, dexSell := AnalyseRouterVolumes(routers, txs);

    var analysis := VolumeAnalysis(dexBuy, dexSell, if dexSell > 0.0 then Some(dexBuy / dexSell) else None);
    r := Some(Statistics(
      TokenSymbol(hs), |hs|, totalHoldings,
      totalBuy, totalSell, totalVolume, buyers, sellers,
      buyShare, sellShare, percentBought, percentSold,
      averageBuyer, averageSeller, pressure, signal, analysis));
  }

  // ---------------------------------------------------------------------
  // The signal the report evidently means to give
  // ---------------------------------------------------------------------

  /** The signal computed from the holdings percentages the report ends up
      with, as the signal rule intends. */
  function IntendedTradingSignal(s: Statistics): (r: TradingSignal)
    ensures s.totalVolume24h <= 0.0 ==> r == TradingSignal(NEUTRAL, NoTradingActivity)
    ensures r.signal == BUYING_PRESSURE <==>
              s.totalVolume24h > 0.0
              && s.percentOfHoldingsBought + s.percentOfHoldingsSold >= SignificantPercent
              && s.buyPressure > 0.6
    ensures r.signal == SELLING_PRESSURE <==>
              s.totalVolume24h > 0.0
              && s.percentOfHoldingsBought + s.percentOfHoldingsSold >= SignificantPercent
              && s.buyPressure < 0.4
  {
    if s.totalVolume24h > 0.0 then
      DetermineTradingSignal(s.buyPressure, s.percentOfHoldingsBought, s.percentOfHoldingsSold)
    else TradingSignal(NEUTRAL, NoTradingActivity)
  }

  /** The balances and the ledger of the selling scenario below. */
  lemma ScenarioLedger(hs: seq<Holder>, t: Transfer)
    requires hs == [Holder("a", Some(1000.0), "")]
    requires t == Transfer(None, Some(100.0), "a", "b", "")
    ensures Balances(hs) == map["a" := 1000.0]
    ensures MapSum(Balances(hs)) == 1000.0
    ensures Tally(Balances(hs), [t]).sellTotal == 100.0
    ensures Tally(Balances(hs), [t]).buyTotal == 0.0
  {
    assert Lower("a") == "a";
    assert Lower("b") == "b";
    assert hs[..0] == [];
    assert Balances(hs) == map["a" := 1000.0];
    MapSumSingleton("a", 1000.0);
    assert [t][..0] == [];
    assert Tally(Balances(hs), [t]) == Record(Balances(hs), Tally(Balances(hs), []), t);
  }

  /** One holder "a" with balance 1000 sends 100 to the non-holder "b": 10%
      of holdings sold and no buy volume. The report as written says
      NEUTRAL / light selling; the intended rule says SELLING_PRESSURE. */
  lemma SellingScenario()
    ensures var s := Stats([Holder("a", Some(1000.0), "")], [Transfer(None, Some(100.0), "a", "b", "")], []);
      && s.totalSellVolume24h == 100.0
      && s.totalBuyVolume24h == 0.0
      && s.percentOfHoldingsSold == 10.0
      && s.tradingSignal == TradingSignal(NEUTRAL, LightSelling)
      && IntendedTradingSignal(s) == TradingSignal(SELLING_PRESSURE, HeavySelling)
  {
    var hs := [Holder("a", Some(1000.0), "")];
    var t := Transfer(None, Some(100.0), "a", "b", "");
    ScenarioLedger(hs, t);
    var s := Stats(hs, [t], []);
    assert s.totalVolume24h == 100.0 && s.buyPressure == 0.0;
    assert s.tradingSignal == DetermineTradingSignal(0.0, 0.0, 0.0);
  }
}
