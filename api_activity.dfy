/** `processTransactions` of src/api.js: like the src/App.js variant, but
    every holder gets a record (an empty address included), records carry no
    balance, and no transfer is skipped. */
module ApiActivity {
  import opened Records

  datatype Activity = Activity(buys: real, sells: real, netAmount: real, lastActivity: Option<int>)

  const Fresh := Activity(0.0, 0.0, 0.0, None)

  /** The lower-cased addresses of all holders. */
  function Addresses(hs: seq<Holder>): set<string>
    decreases |hs|
  {
    if hs == [] then {} else Addresses(hs[..|hs| - 1]) + {Lower(hs[|hs| - 1].address)}
  }

  /** Lines 298-306: one fresh record per lower-cased holder address. */
  function Initial(hs: seq<Holder>): map<string, Activity>
    decreases |hs|
  {
    if hs == [] then map[] else Initial(hs[..|hs| - 1])[Lower(hs[|hs| - 1].address) := Fresh]
  }

  /** Lines 310-326: the sender's record sells, then the receiver's record
      buys; the time is copied as it is (`None` for a missing one). */
  function Apply(m: map<string, Activity>, t: Transfer): map<string, Activity>
    requires t.amount.Some?
  {
    var amount := t.amount.value;
    var s, r := Lower(t.sender), Lower(t.receiver);
    var m1 :=
      if s in m then m[s := m[s].(sells := m[s].sells + amount, netAmount := m[s].netAmount - amount, lastActivity := t.time)]
      else m;
    if r in m1 then m1[r := m1[r].(buys := m1[r].buys + amount, netAmount := m1[r].netAmount + amount, lastActivity := t.time)]
    else m1
  }

  predicate AllAmounts(txs: seq<Transfer>) {
    forall i :: 0 <= i < |txs| ==> txs[i].amount.Some?
  }

  function ApplyAll(m: map<string, Activity>, txs: seq<Transfer>): map<string, Activity>
    requires AllAmounts(txs)
    decreases |txs|
  {
    if txs == [] then m else Apply(ApplyAll(m, txs[..|txs| - 1]), txs[|txs| - 1])
  }

  /** Amount received by `a` over all transfers. */
  function Bought(a: string, txs: seq<Transfer>): real
    requires AllAmounts(txs)
    decreases |txs|
  {
    if txs == [] then 0.0
    else
      var t := txs[|txs| - 1];
      Bought(a, txs[..|txs| - 1]) + if Lower(t.receiver) == a then t.amount.value else 0.0
  }

  /** Amount sent by `a` over all transfers. */
  function Sold(a: string, txs: seq<Transfer>): real
    requires AllAmounts(txs)
    decreases |txs|
  {
    if txs == [] then 0.0
    else
      var t := txs[|txs| - 1];
      Sold(a, txs[..|txs| - 1]) + if Lower(t.sender) == a then t.amount.value else 0.0
  }

  /** Whether some transfer has `a` on either side, and the time of the
      last one that does. */
  predicate Touched(a: string, txs: seq<Transfer>) {
    exists i :: 0 <= i < |txs| && (Lower(txs[i].sender) == a || Lower(txs[i].receiver) == a)
  }

  function LastTime(a: string, txs: seq<Transfer>): Option<int>
    decreases |txs|
  {
    if txs == [] then None
    else
      var t := txs[|txs| - 1];
      if Lower(t.sender) == a || Lower(t.receiver) == a then t.time else LastTime(a, txs[..|txs| - 1])
  }

  lemma {:induction false} InitialFacts(hs: seq<Holder>)
    ensures Initial(hs).Keys == Addresses(hs)
    ensures forall a :: a in Initial(hs) ==> Initial(hs)[a] == Fresh
    decreases |hs|
  {
    if hs != [] {
      InitialFacts(hs[..|hs| - 1]);
    }
  }

  lemma {:induction false} ApplyAllKeys(m: map<string, Activity>, txs: seq<Transfer>)
    requires AllAmounts(txs)
    ensures ApplyAll(m, txs).Keys == m.Keys
    decreases |txs|
  {
    if txs != [] {
      ApplyAllKeys(m, txs[..|txs| - 1]);
    }
  }

  /** What one transfer does to the record of `a`. */
  lemma ApplyEffect(m0: map<string, Activity>, t: Transfer, a: string)
    requires t.amount.Some?
    requires a in m0
    ensures a in Apply(m0, t)
    ensures var e, e0 := Apply(m0, t)[a], m0[a];
      var bought := if Lower(t.receiver) == a then t.amount.value else 0.0;
      var sold := if Lower(t.sender) == a then t.amount.value else 0.0;
      && e.buys == e0.buys + bought
      && e.sells == e0.sells + sold
      && e.netAmount == e0.netAmount + bought - sold
      && e.lastActivity == if Lower(t.sender) == a || Lower(t.receiver) == a then t.time else e0.lastActivity
  {
  }

  /** `a` is touched by a sequence iff the last transfer or an earlier one
      touches it. */
  lemma TouchedSplit(a: string, txs: seq<Transfer>)
    requires txs != []
    ensures var t := txs[|txs| - 1];
      Touched(a, txs) <==> (Lower(t.sender) == a || Lower(t.receiver) == a || Touched(a, txs[..|txs| - 1]))
  {
    var pre := txs[..|txs| - 1];
    if Touched(a, txs) {
      var i :| 0 <= i < |txs| && (Lower(txs[i].sender) == a || Lower(txs[i].receiver) == a);
      if i < |pre| {
        assert pre[i] == txs[i];
      }
    }
    if Touched(a, pre) {
      var i :| 0 <= i < |pre| && (Lower(pre[i].sender) == a || Lower(pre[i].receiver) == a);
      assert txs[i] == pre[i];
    }
  }

  lemma AllAmountsPrefix(txs: seq<Transfer>, n: nat)
    requires AllAmounts(txs)
    requires n <= |txs|
    ensures AllAmounts(txs[..n])
  {
    forall i | 0 <= i < n ensures txs[..n][i].amount.Some? {
      assert txs[..n][i] == txs[i];
    }
  }

  /** Each record grows by what its address received and sent, and ends with
      the time of the last transfer that touched it, if any did. */
  lemma {:induction false} ApplyAllFacts(m: map<string, Activity>, txs: seq<Transfer>, a: string)
    requires AllAmounts(txs)
    requires a in m
    ensures a in ApplyAll(m, txs)
    ensures var e, e0 := ApplyAll(m, txs)[a], m[a];
      && e.buys == e0.buys + Bought(a, txs)
      && e.sells == e0.sells + Sold(a, txs)
      && e.netAmount == e0.netAmount + Bought(a, txs) - Sold(a, txs)
      && e.lastActivity == if Touched(a, txs) then LastTime(a, txs) else e0.lastActivity
    decreases |txs|
  {
    if txs != [] {
      var pre, t := txs[..|txs| - 1], txs[|txs| - 1];
      AllAmountsPrefix(txs, |txs| - 1);
      ApplyAllFacts(m, pre, a);
      ApplyEffect(ApplyAll(m, pre), t, a);
      TouchedSplit(a, txs);
    }
  }

  /** `processTransactions(transactions, holders)`: the records exist for
      exactly the holder addresses, transfers between other parties are
      ignored, and every record keeps netAmount = buys - sells. */
  method ProcessTransactions(transactions: seq<Transfer>, holders: seq<Holder>)
    returns (holderActivity: map<string, Activity>)
    requires AllAmounts(transactions)
    ensures holderActivity.Keys == Addresses(holders)
    ensures forall a :: a in holderActivity ==>
              && holderActivity[a].buys == Bought(a, transactions)
              && holderActivity[a].sells == Sold(a, transactions)
              && holderActivity[a].netAmount == holderActivity[a].buys - holderActivity[a].sells
              && holderActivity[a].lastActivity == LastTime(a, transactions)
  {
    holderActivity := map[];
    var i := 0;
    while i < |holders|
      invariant 0 <= i <= |holders|
      invariant holderActivity == Initial(holders[..i])
    {
      var address := Lower(holders[i].address);
      holderActivity := holderActivity[address := Fresh];
      assert holders[..i + 1][..i] == holders[..i];
      i := i + 1;
    }
    assert holders[..|holders|] == holders;
    var init := holderActivity;
    var j := 0;
    while j < |transactions|
      invariant 0 <= j <= |transactions|
      invariant AllAmounts(transactions[..j])
      invariant holderActivity == ApplyAll(init, transactions[..j])
    {
      AllAmountsPrefix(transactions, j + 1);
      var before := holderActivity;
      var tx := transactions[j];
      var amount := tx.amount.value;
      var senderLower := Lower(tx.sender);
      var receiverLower := Lower(tx.receiver);
      if senderLower in holderActivity {
        var e := holderActivity[senderLower];
        holderActivity := holderActivity[senderLower := e.(sells := e.sells + amount, netAmount := e.netAmount - amount, lastActivity := tx.time)];
      }
      if receiverLower in holderActivity {
        var e := holderActivity[receiverLower];
        holderActivity := holderActivity[receiverLower := e.(buys := e.buys + amount, netAmount := e.netAmount + amount, lastActivity := tx.time)];
      }
      assert holderActivity == Apply(before, tx);
      assert transactions[..j + 1][..j] == transactions[..j];
      j := j + 1;
    }
    assert transactions[..|transactions|] == transactions;
    ProcessedRecords(holders, transactions);
  }

  /** The records that start fresh for every holder and take in every
      transfer. */
  lemma ProcessedRecords(holders: seq<Holder>, transactions: seq<Transfer>)
    requires AllAmounts(transactions)
    ensures var m := ApplyAll(Initial(holders), transactions);
      && m.Keys == Addresses(holders)
      && forall a :: a in m ==>
           && m[a].buys == Bought(a, transactions)
           && m[a].sells == Sold(a, transactions)
           && m[a].netAmount == m[a].buys - m[a].sells
           && m[a].lastActivity == LastTime(a, transactions)
  {
    var init := Initial(holders);
    InitialFacts(holders);
    ApplyAllKeys(init, transactions);
    var m := ApplyAll(init, transactions);
    forall a | a in m
      ensures m[a].buys == Bought(a, transactions)
      ensures m[a].sells == Sold(a, transactions)
      ensures m[a].netAmount == m[a].buys - m[a].sells
      ensures m[a].lastActivity == LastTime(a, transactions)
    {
      ApplyAllFacts(init, transactions, a);
      NoTouchNoTime(a, transactions);
    }
  }

  lemma {:induction false} NoTouchNoTime(a: string, txs: seq<Transfer>)
    ensures !Touched(a, txs) ==> LastTime(a, txs) == None
    decreases |txs|
  {
    if txs != [] && !Touched(a, txs) {
      var pre := txs[..|txs| - 1];
      forall i | 0 <= i < |pre| ensures !(Lower(pre[i].sender) == a || Lower(pre[i].receiver) == a) {
        assert pre[i] == txs[i];
      }
      NoTouchNoTime(a, pre);
    }
  }
}
