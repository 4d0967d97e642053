/** The analysis helpers of src/api.js: the `isLikelyDEX` heuristic, the
    holder filter of `fetchTopHolders`, the transfer de-duplication of
    `fetchTransactions` and `calculatePercentageChange`. */
module Api {
  import opened Records
  import opened Sequences

  /** Router addresses every holder list is cleaned of; the literals are
      already lower case. */
  const KnownDEXAddresses: seq<string> := [
    "0x7a250d5630b4cf539739df2c5dacb4c659f2488d",
    "0x68b3465833fb72a70ecdf485e0e4c7bd8665fc45",
    "0x1111111254eeb25477b68fb85ed929f73a960582"
  ]

  const TransactionThreshold: nat := 30
  const SmallTradeThreshold: real := 500.0
  const HighValueThreshold: real := 100000.0
  /** Five minutes in milliseconds. */
  const WindowMs: nat := 5 * 60 * 1000

  // ---------------------------------------------------------------------
  // isLikelyDEX
  // ---------------------------------------------------------------------

  /** The transfer has `address` as sender or receiver, ignoring case. */
  predicate Involves(t: Transfer, address: string) {
    Lower(t.sender) == Lower(address) || Lower(t.receiver) == Lower(address)
  }

  function Matching(txs: seq<Transfer>, address: string): seq<Transfer> {
    Filter(txs, t => Involves(t, address))
  }

  /** The five-minute window of a transfer: the floor of its time over
      300000 ms; a transfer without a time falls into the single NaN
      window, written `None`. */
  function Window(t: Transfer): (w: Option<int>)
    ensures t.time.Some? ==> w.Some? && w.value * WindowMs <= t.time.value < (w.value + 1) * WindowMs
  {
    if t.time.Some? then Some(t.time.value / WindowMs) else None
  }

  /** An amount below 500; a missing amount (NaN) is not. */
  predicate IsSmall(t: Transfer) {
    t.amount.Some? && t.amount.value < SmallTradeThreshold
  }

  predicate IsLarge(t: Transfer) {
    t.amount.Some? && t.amount.value > HighValueThreshold
  }

  /** The distinct windows the transfers fall into. */
  function Windows(s: seq<Transfer>): set<Option<int>>
    decreases |s|
  {
    if s == [] then {} else Windows(s[..|s| - 1]) + {Window(s[|s| - 1])}
  }

  function SmallTrades(s: seq<Transfer>): nat
    decreases |s|
  {
    if s == [] then 0 else SmallTrades(s[..|s| - 1]) + if IsSmall(s[|s| - 1]) then 1 else 0
  }

  /** The heuristic's verdict. */
  predicate LikelyDEX(transactions: Option<seq<Transfer>>, address: string) {
    transactions.Some? &&
    var m := Matching(transactions.value, address);
    |m| > TransactionThreshold || (|Windows(m)| >= 5 && SmallTrades(m) > 10)
  }

  lemma {:induction false} CountsBounded(s: seq<Transfer>)
    ensures SmallTrades(s) <= |s|
    ensures |Windows(s)| <= |s|
    decreases |s|
  {
    if s != [] {
      CountsBounded(s[..|s| - 1]);
    }
  }

  /** An address is flagged when more than 30 transfers involve it, and
      never when at most 10 do: the sustained-activity test needs more than
      10 small trades among them. */
  lemma {:induction false} LikelyDEXThresholds(transactions: seq<Transfer>, address: string)
    ensures |Matching(transactions, address)| > TransactionThreshold ==> LikelyDEX(Some(transactions), address)
    ensures |Matching(transactions, address)| <= 10 ==> !LikelyDEX(Some(transactions), address)
    ensures !LikelyDEX(None, address)
  {
    CountsBounded(Matching(transactions, address));
  }

  /** The verdict does not depend on the case of the address. */
  lemma {:induction false} LikelyDEXIgnoresCase(transactions: Option<seq<Transfer>>, address: string)
    ensures LikelyDEX(transactions, Lower(address)) == LikelyDEX(transactions, address)
  {
    LowerIdempotent(address);
    if transactions.Some? {
      FilterAgree(transactions.value, t => Involves(t, Lower(address)), t => Involves(t, address));
    }
  }

  /** A transfer that does not involve the address, wherever it sits in
      the list, does not change the verdict. */
  lemma {:induction false} LikelyDEXIgnoresOthers(xs: seq<Transfer>, t: Transfer, ys: seq<Transfer>, address: string)
    requires !Involves(t, address)
    ensures LikelyDEX(Some(xs + [t] + ys), address) == LikelyDEX(Some(xs + ys), address)
  {
    var p := (u: Transfer) => Involves(u, address);
    FilterConcat(xs + [t], ys, p);
    FilterConcat(xs, [t], p);
    FilterConcat(xs, ys, p);
    assert Filter([t], p) == [];
    assert Filter(xs, p) + [] == Filter(xs, p);
  }

  /** `isLikelyDEX(transactions, address)`; `None` stands for a missing
      list. The grouping counters are kept as the source keeps them, though
      the verdict never reads them. */
  method IsLikelyDEX(transactions: Option<seq<Transfer>>, address: string) returns (r: bool)
    ensures r == LikelyDEX(transactions, address)
  {
    if transactions.None? {
      return false;
    }
    var addressTxs := Matching(transactions.value, address);
    if |addressTxs| > TransactionThreshold {
      return true;
    }
    var txGroups: map<(Option<int>, Option<int>), nat> := map[];
    var smallTradesCount := 0;
    var largeTradesCount := 0;
    var timeWindowCount: set<Option<int>> := {};
    var i := 0;
    while i < |addressTxs|
      invariant 0 <= i <= |addressTxs|
      invariant timeWindowCount == Windows(addressTxs[..i])
      invariant smallTradesCount == SmallTrades(addressTxs[..i])
    {
      var tx := addressTxs[i];
      var timeWindow := Window(tx);
      timeWindowCount := timeWindowCount + {timeWindow};
      var key := (if tx.amount.Some? then Some(tx.amount.value.Floor) else None, timeWindow);
      txGroups := txGroups[key := (if key in txGroups then txGroups[key] else 0) + 1];
      if IsSmall(tx) {
        smallTradesCount := smallTradesCount + 1;
      } else if IsLarge(tx) {
        largeTradesCount := largeTradesCount + 1;
      }
      assert addressTxs[..i + 1][..i] == addressTxs[..i];
      i := i + 1;
    }
    assert addressTxs[..|addressTxs|] == addressTxs;
    r := |timeWindowCount| >= 5 && smallTradesCount > 10;
  }

  // ---------------------------------------------------------------------
  // The holder filter of fetchTopHolders
  // ---------------------------------------------------------------------

  predicate KeepHolder(transactions: seq<Transfer>, h: Holder) {
    var address := Lower(h.address);
    address !in KnownDEXAddresses && !LikelyDEX(Some(transactions), address)
  }

  /** `holders.filter(...)` against the fetched transfers (`None` when the
      fetch gave nothing, which the source replaces by an empty list). */
  function FilterHolders(holders: seq<Holder>, transactions: Option<seq<Transfer>>): (r: seq<Holder>)
    ensures |r| <= |holders|
    ensures forall h :: h in r ==> h in holders
  {
    var txs := if transactions.Some? then transactions.value else [];
    Filter(holders, h => KeepHolder(txs, h))
  }

  /** The filter keeps holders in order, keeps exactly those that are
      neither a known router nor flagged by the heuristic, keeps repeated
      entries as often as they occur, and never drops a non-router with at
      most 10 transfers. */
  lemma {:induction false} FilterHoldersFacts(holders: seq<Holder>, transactions: seq<Transfer>)
    ensures var r := FilterHolders(holders, Some(transactions));
      && Subsequence(r, holders)
      && (forall h :: h in r <==>
            h in holders && Lower(h.address) !in KnownDEXAddresses && !LikelyDEX(Some(transactions), h.address))
      && (forall h :: h in r ==> multiset(r)[h] == multiset(holders)[h])
      && (forall h :: (h in holders && Lower(h.address) !in KnownDEXAddresses
                       && |Matching(transactions, h.address)| <= 10) ==> h in r)
  {
    var p := (h: Holder) => KeepHolder(transactions, h);
    FilterIsSubsequence(holders, p);
    forall h | h in holders
      ensures LikelyDEX(Some(transactions), Lower(h.address)) == LikelyDEX(Some(transactions), h.address)
      ensures |Matching(transactions, h.address)| <= 10 ==> !LikelyDEX(Some(transactions), h.address)
    {
      LikelyDEXIgnoresCase(Some(transactions), h.address);
      LikelyDEXThresholds(transactions, h.address);
    }
  }

  // ---------------------------------------------------------------------
  // Transfer de-duplication in fetchTransactions
  // ---------------------------------------------------------------------

  /** The fields two transfers are compared on. */
  datatype TransferKey = TransferKey(time: Option<int>, amount: Option<real>, sender: string, receiver: string)

  function Key(t: Transfer): TransferKey {
    TransferKey(t.time, t.amount, t.sender, t.receiver)
  }

  /** The sort key of the "newest first" comparator. */
  function TimeKey(t: Transfer): int {
    if t.time.Some? then t.time.value else 0
  }

  /** `self.findIndex(...)` from position `j` on: the first index holding
      key `k`, or -1. */
  function FindIndexFrom(s: seq<Transfer>, k: TransferKey, j: nat): (r: int)
    requires j <= |s|
    ensures r == -1 || (j <= r < |s| && Key(s[r]) == k)
    ensures forall l :: j <= l < |s| && (r == -1 || l < r) ==> Key(s[l]) != k
    decreases |s| - j
  {
    if j == |s| then -1 else if Key(s[j]) == k then j else FindIndexFrom(s, k, j + 1)
  }

  /** `filter((tx, index, self) => index === self.findIndex(...))` from
      position `i` on. */
  function KeepFirstFrom(s: seq<Transfer>, i: nat): (r: seq<Transfer>)
    requires i <= |s|
    ensures |r| <= |s| - i
    decreases |s| - i
  {
    if i == |s| then []
    else (if FindIndexFrom(s, Key(s[i]), 0) == i then [s[i]] else []) + KeepFirstFrom(s, i + 1)
  }

  /** The combined sending and receiving transfers, newest first, each
      key kept at its first position only. */
  function Dedup(sending: seq<Transfer>, receiving: seq<Transfer>): (r: seq<Transfer>)
    ensures |r| <= |sending| + |receiving|
  {
    KeepFirstFrom(SortDesc(sending + receiving, TimeKey), 0)
  }

  lemma {:induction false} KeepFirstFacts(s: seq<Transfer>, i: nat)
    requires i <= |s|
    ensures Subsequence(KeepFirstFrom(s, i), s[i..])
    ensures forall x :: x in KeepFirstFrom(s, i) ==> FindIndexFrom(s, Key(x), 0) >= i
    ensures forall a, b :: 0 <= a < b < |KeepFirstFrom(s, i)| ==>
              Key(KeepFirstFrom(s, i)[a]) != Key(KeepFirstFrom(s, i)[b])
    ensures forall j :: i <= j < |s| && FindIndexFrom(s, Key(s[j]), 0) == j ==> s[j] in KeepFirstFrom(s, i)
    decreases |s| - i
  {
    if i < |s| {
      KeepFirstFacts(s, i + 1);
      var rest := KeepFirstFrom(s, i + 1);
      assert s[i..][1..] == s[i + 1..];
      if FindIndexFrom(s, Key(s[i]), 0) == i {
        var r := [s[i]] + rest;
        assert r[1..] == rest;
        forall a, b | 0 <= a < b < |r| ensures Key(r[a]) != Key(r[b]) {
          if a > 0 {
            assert r[a] == rest[a - 1] && r[b] == rest[b - 1];
          } else {
            assert r[b] == rest[b - 1] && r[b] in rest;
          }
        }
      } else {
        assert [] + rest == rest;
        assert Subsequence(rest, s[i..][1..]);
      }
    }
  }

  /** Every key of `s` is kept: at the first position that holds it. */
  lemma {:induction false} KeepFirstCovers(s: seq<Transfer>)
    ensures forall x :: x in s ==> exists y :: y in KeepFirstFrom(s, 0) && Key(y) == Key(x)
  {
    KeepFirstFacts(s, 0);
    forall x | x in s ensures exists y :: y in KeepFirstFrom(s, 0) && Key(y) == Key(x) {
      var j :| 0 <= j < |s| && s[j] == x;
      var f := FindIndexFrom(s, Key(x), 0);
      assert 0 <= f <= j;
      assert s[f] in KeepFirstFrom(s, 0);
    }
  }

  /** The de-duplicated list is sorted newest first, no two of its transfers
      share time, amount, sender and receiver, every one of them comes from
      the input, and every key of the input is represented. */
  lemma {:induction false} DedupFacts(sending: seq<Transfer>, receiving: seq<Transfer>)
    ensures var r := Dedup(sending, receiving);
      && SortedDesc(r, TimeKey)
      && (forall a, b :: 0 <= a < b < |r| ==> Key(r[a]) != Key(r[b]))
      && (forall x :: x in r ==> x in sending + receiving)
      && (forall x :: x in sending + receiving ==> exists y :: y in r && Key(y) == Key(x))
  {
    DedupOrder(sending, receiving);
    DedupMembers(sending, receiving);
    DedupCovers(sending, receiving);
  }

  /** Newest first, each key once. */
  lemma DedupOrder(sending: seq<Transfer>, receiving: seq<Transfer>)
    ensures var r := Dedup(sending, receiving);
      && SortedDesc(r, TimeKey)
      && (forall a, b :: 0 <= a < b < |r| ==> Key(r[a]) != Key(r[b]))
  {
    var s := SortDesc(sending + receiving, TimeKey);
    KeepFirstFacts(s, 0);
    assert s[0..] == s;
    SubsequenceSorted(KeepFirstFrom(s, 0), s, TimeKey);
  }

  /** Nothing new. */
  lemma DedupMembers(sending: seq<Transfer>, receiving: seq<Transfer>)
    ensures forall x :: x in Dedup(sending, receiving) ==> x in sending + receiving
  {
    var s := SortDesc(sending + receiving, TimeKey);
    KeepFirstFacts(s, 0);
    assert s[0..] == s;
    SubsequenceMembers(KeepFirstFrom(s, 0), s);
    SameMembers(s, sending + receiving);
  }

  /** Every key of the input kept. */
  lemma DedupCovers(sending: seq<Transfer>, receiving: seq<Transfer>)
    ensures forall x :: x in sending + receiving ==> exists y :: y in Dedup(sending, receiving) && Key(y) == Key(x)
  {
    var s := SortDesc(sending + receiving, TimeKey);
    KeepFirstCovers(s);
    SameMembers(s, sending + receiving);
  }

  // ---------------------------------------------------------------------
  // calculatePercentageChange
  // ---------------------------------------------------------------------

  /** A zero balance counts as a 100% change; otherwise the amount as a
      percentage of the balance. */
  function CalculatePercentageChange(amount: real, balance: real): (r: real)
    ensures balance == 0.0 ==> r == 100.0
    ensures balance != 0.0 ==> r * balance == amount * 100.0
  {
    if balance == 0.0 then 100.0 else (amount / balance) * 100.0
  }
}
