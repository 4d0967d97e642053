/** The table helpers of src/App.js: holder rank ordinals, the DEX-only
    transaction filter and the 100-row pages. */
module TransactionView {
  import opened Records
  import opened Sequences
  import opened Addresses

  // ---------------------------------------------------------------------
  // formatRank
  // ---------------------------------------------------------------------

  function DigitChar(d: nat): (c: char)
    requires d < 10
    ensures '0' <= c <= '9' && (c as int) - ('0' as int) == d
  {
    ((d + '0' as int) as char)
  }

  /** Decimal digits of a natural number, as template literals print it. */
  function NatToString(n: nat): (s: string)
    ensures |s| >= 1
    ensures forall i :: 0 <= i < |s| ==> '0' <= s[i] <= '9'
    decreases n
  {
    if n < 10 then [DigitChar(n)] else NatToString(n / 10) + [DigitChar(n % 10)]
  }

  function IntToString(n: int): (s: string)
    ensures |s| >= 1
  {
    if n < 0 then "-" + NatToString(-n) else NatToString(n)
  }

  /** The number a string of decimal digits denotes. */
  function DigitsValue(s: string): int
    decreases |s|
  {
    if s == [] then 0 else DigitsValue(s[..|s| - 1]) * 10 + ((s[|s| - 1] as int) - ('0' as int))
  }

  /** The printed digits read back as the number printed. */
  lemma {:induction false} NatToStringRoundTrip(n: nat)
    ensures DigitsValue(NatToString(n)) == n
    decreases n
  {
    if n >= 10 {
      NatToStringRoundTrip(n / 10);
      var s := NatToString(n / 10) + [DigitChar(n % 10)];
      assert s[..|s| - 1] == NatToString(n / 10);
    } else {
      assert [DigitChar(n)][..0] == [];
    }
  }

  /** The ordinal suffix: the teens 11-13 (by the truncated remainder)
      take "th" first; otherwise the last digit picks from the list, with
      "th" for a digit past 3 or a negative remainder. */
  function OrdinalSuffix(rank: int): string {
    var lastDigit := JsRem(rank, 10);
    var lastTwoDigits := JsRem(rank, 100);
    if 11 <= lastTwoDigits <= 13 then "th"
    else if 0 <= lastDigit < 4 then ["th", "st", "nd", "rd"][lastDigit]
    else "th"
  }

  function FormatRank(rank: int): (r: string)
    ensures r == "" <==> rank == 0
    ensures rank != 0 ==> r[0] == '#'
  {
    if rank == 0 then "" else "#" + IntToString(rank) + OrdinalSuffix(rank)
  }

  /** The English ordinal rule: "st", "nd" and "rd" go with a last digit
      1, 2, 3 except in the teens 11-13; everything else, negative ranks
      included, takes "th". */
  lemma {:induction false} OrdinalSuffixRule(rank: int)
    ensures OrdinalSuffix(rank) in {"st", "nd", "rd", "th"}
    ensures OrdinalSuffix(rank) == "st" <==> rank > 0 && rank % 10 == 1 && rank % 100 != 11
    ensures OrdinalSuffix(rank) == "nd" <==> rank > 0 && rank % 10 == 2 && rank % 100 != 12
    ensures OrdinalSuffix(rank) == "rd" <==> rank > 0 && rank % 10 == 3 && rank % 100 != 13
  {
    if rank > 0 {
      assert JsRem(rank, 10) == rank % 10 && JsRem(rank, 100) == rank % 100;
      LastDigitOfLastTwo(rank);
    }
  }

  lemma LastDigitOfLastTwo(n: nat)
    ensures n % 10 == (n % 100) % 10
  {
    var m, k := n % 100, n / 100;
    assert n == 100 * k + m;
    assert n == 10 * (10 * k) + m;
    ShiftByTens(10 * k, m);
  }

  /** Adding whole tens leaves the last digit alone. */
  lemma {:induction false} ShiftByTens(j: nat, m: nat)
    ensures (10 * j + m) % 10 == m % 10
    decreases j
  {
    if j > 0 {
      ShiftByTens(j - 1, m);
      assert 10 * j + m == 10 * (j - 1) + m + 10;
    }
  }

  /** A rank is printed as '#', its decimal digits and a two-letter
      ordinal suffix; rank 0 prints nothing. */
  lemma {:induction false} FormatRankRule(rank: int)
    ensures rank == 0 <==> FormatRank(rank) == ""
    ensures rank != 0 ==>
      var r := FormatRank(rank);
      && |r| >= 4
      && r[0] == '#'
      && r[1..|r| - 2] == IntToString(rank)
      && r[|r| - 2..] == OrdinalSuffix(rank)
  {
    if rank != 0 {
      OrdinalSuffixRule(rank);
      var r := FormatRank(rank);
      assert r[1..|r| - 2] == IntToString(rank);
    }
  }

  // ---------------------------------------------------------------------
  // filterTransactions and the page slice
  // ---------------------------------------------------------------------

  /** A trade with a DEX on the receiving (sell) or the sending (buy) side. */
  predicate IsDexTrade(routers: seq<string>, t: Transfer) {
    IsDEXAddress(routers, t.receiver) || IsDEXAddress(routers, t.sender)
  }

  /** `filterTransactions(txs)`; `None` stands for a missing list. */
  function FilterTransactions(txs: Option<seq<Transfer>>, showDexOnly: bool, routers: seq<string>): (r: seq<Transfer>)
    ensures txs.None? ==> r == []
    ensures forall t :: t in r ==> txs.Some? && t in txs.value
  {
    if txs.None? then []
    else if showDexOnly then Filter(txs.value, t => IsDexTrade(routers, t))
    else Filter(txs.value, t => true)
  }

  /** The filter keeps the order of the transfers it keeps and drops none
      of their repetitions; it is the identity when `showDexOnly` is off and
      keeps exactly the DEX trades when it is on. */
  lemma {:induction false} FilterTransactionsFacts(txs: seq<Transfer>, showDexOnly: bool, routers: seq<string>)
    ensures var r := FilterTransactions(Some(txs), showDexOnly, routers);
      && Subsequence(r, txs)
      && (!showDexOnly ==> r == txs)
      && (showDexOnly ==> forall t :: t in r <==> t in txs && IsDexTrade(routers, t))
      && (showDexOnly ==> forall t :: IsDexTrade(routers, t) ==> multiset(r)[t] == multiset(txs)[t])
  {
    FilterIsSubsequence(txs, t => IsDexTrade(routers, t));
    FilterIsSubsequence(txs, t => true);
    if !showDexOnly {
      FilterAllIsIdentity(txs);
    }
  }

  lemma {:induction false} FilterAllIsIdentity(txs: seq<Transfer>)
    ensures Filter(txs, t => true) == txs
    decreases |txs|
  {
    if txs != [] {
      FilterAllIsIdentity(txs[1..]);
      assert txs == [txs[0]] + txs[1..];
    }
  }

  const TransactionsPerPage: nat := 100

  /** `filteredTransactions.slice((currentPage - 1) * 100, currentPage * 100)`. */
  function CurrentPage(filtered: seq<Transfer>, currentPage: int): (r: seq<Transfer>)
    ensures |r| <= TransactionsPerPage
  {
    JsSlice(filtered, (currentPage - 1) * TransactionsPerPage, currentPage * TransactionsPerPage)
  }

  /** `Math.ceil(filteredTransactions.length / 100)`. */
  function TotalPages(n: nat): nat {
    (n + TransactionsPerPage - 1) / TransactionsPerPage
  }

  /** Page `p` holds at most 100 transfers: those at positions
      (p - 1) * 100 up to p * 100 of the filtered list. */
  lemma {:induction false} PageContents(filtered: seq<Transfer>, p: int)
    requires p >= 1
    ensures var page := CurrentPage(filtered, p);
      && |page| <= TransactionsPerPage
      && |page| == (if |filtered| <= (p - 1) * 100 then 0
                    else if |filtered| >= p * 100 then 100
                    else |filtered| - (p - 1) * 100)
      && forall i :: 0 <= i < |page| ==> page[i] == filtered[(p - 1) * 100 + i]
  {
  }

  /** Every filtered transfer is shown on exactly one of the pages 1 to
      TotalPages: position k sits on page k / 100 + 1, at row k % 100. */
  lemma {:induction false} PagesCover(filtered: seq<Transfer>, k: nat)
    requires k < |filtered|
    ensures var p := k / 100 + 1;
      && 1 <= p <= TotalPages(|filtered|)
      && k % 100 < |CurrentPage(filtered, p)|
      && CurrentPage(filtered, p)[k % 100] == filtered[k]
      && forall q :: 1 <= q && q != p ==> !((q - 1) * 100 <= k < q * 100)
  {
    PageContents(filtered, k / 100 + 1);
  }
}
