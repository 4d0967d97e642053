/** The records that the dashboard receives from the indexing API, and the
    small pieces of JavaScript semantics (lower-casing, `slice`) that every
    other module relies on. */
module Records {

  datatype Option<+T> = None | Some(value: T)

  /** One token transfer as returned by the GraphQL `Transfers` query.
      `time` is `Block.Time` in milliseconds and `amount` is
      `Transfer.Amount`; both are `None` when the field is absent (the
      source tests them for falsiness). An empty `sender` or `receiver`
      stands for an absent or empty address string. `symbol` is
      `Transfer.Currency.Symbol`. */
  datatype Transfer = Transfer(
    time: Option<int>,
    amount: Option<real>,
    sender: string,
    receiver: string,
    symbol: string)

  /** One entry of the `TokenHolders` query: `Holder.Address` (empty when
      absent), `Balance.Amount` (`None` when absent) and
      `Currency.Symbol` (empty when absent). */
  datatype Holder = Holder(address: string, balance: Option<real>, symbol: string)

  /** A transfer whose `Block.Time` and `Transfer.Amount` are both present. */
  predicate Complete(t: Transfer) {
    t.time.Some? && t.amount.Some?
  }

  function LowerChar(c: char): (r: char)
    ensures 'A' <= c <= 'Z' ==> r as int == c as int + 32
    ensures !('A' <= c <= 'Z') ==> r == c
    ensures !('A' <= r <= 'Z')
  {
    if 'A' <= c <= 'Z' then (c as int + 32) as char else c
  }

  /** `String.prototype.toLowerCase`, restricted to the ASCII letters that
      chain addresses use. */
  function Lower(s: string): (r: string)
    ensures |r| == |s|
    ensures forall i :: 0 <= i < |s| ==> r[i] == LowerChar(s[i])
  {
    seq(|s|, i requires 0 <= i < |s| => LowerChar(s[i]))
  }

  /** Lower-casing twice is lower-casing once, so every comparison made on
      lower-cased addresses is insensitive to the case of its input. */
  lemma LowerIdempotent(s: string)
    ensures Lower(Lower(s)) == Lower(s)
  {
    assert forall i :: 0 <= i < |s| ==> Lower(Lower(s))[i] == Lower(s)[i];
  }

  lemma LowerEmpty(s: string)
    ensures Lower(s) == "" <==> s == ""
  {
  }

  /** The position `Array.prototype.slice` starts from (or stops at) for a
      possibly negative index into a sequence of length `n`. */
  function SliceIndex(n: nat, k: int): (r: nat)
    ensures r <= n
    ensures k < 0 ==> r == if n + k < 0 then 0 else n + k
    ensures k >= 0 ==> r == if k < n then k else n
  {
    if k < 0 then (if n + k < 0 then 0 else n + k) else if k < n then k else n
  }

  /** `s.slice(start, end)`: negative indices count from the end, both are
      clamped to the sequence, and an empty range gives the empty sequence. */
  function JsSlice<T>(s: seq<T>, start: int, end: int): (r: seq<T>)
    ensures |r| <= |s|
    ensures SliceIndex(|s|, start) <= SliceIndex(|s|, end) ==>
              r == s[SliceIndex(|s|, start)..SliceIndex(|s|, end)]
    ensures SliceIndex(|s|, start) > SliceIndex(|s|, end) ==> r == []
  {
    var from, to := SliceIndex(|s|, start), SliceIndex(|s|, end);
    if from < to then s[from..to] else []
  }

  /** JavaScript's `%`, whose remainder takes the sign of the dividend
      (Dafny's `%` is Euclidean and never negative). */
  function JsRem(a: int, b: int): (r: int)
    requires b > 0
    ensures a >= 0 ==> 0 <= r < b
    ensures a < 0 ==> -b < r <= 0
  {
    if a >= 0 then a % b else -((-a) % b)
  }
}
