/** `processTransactions` of src/App.js: one activity record per holder
    address, updated in place by every transfer that has an amount and a
    time. */
module HolderActivity {
  import opened Records

  /** The record kept per lower-cased holder address. The source also keeps
      a `transactions` array that nothing ever pushes to; it is left out. */
  datatype Activity = Activity(
    buys: real,
    sells: real,
    netAmount: real,
    lastActivity: Option<int>,
    balance: real)

  /** The addresses that get a record: every holder with an address. */
  function Tracked(hs: seq<Holder>): set<string>
    decreases |hs|
  {
    if hs == [] then {}
    else
      var h := hs[|hs| - 1];
      Tracked(hs[..|hs| - 1]) + if h.address != "" then {Lower(h.address)} else {}
  }

  /** The fresh records of lines 418-430; a repeated address is reset by its
      later occurrence. */
  function Initial(hs: seq<Holder>): (m: map<string, Activity>)
    decreases |hs|
  {
    if hs == [] then map[]
    else
      var h := hs[|hs| - 1];
      var m := Initial(hs[..|hs| - 1]);
      if h.address != "" then
        m[Lower(h.address) := Activity(0.0, 0.0, 0.0, None, if h.balance.Some? then h.balance.value else 0.0)]
      else m
  }

  /** The balance a tracked address starts with: the amount of the last
      holder entry with that address, 0 when that entry has no amount. */
  function BalanceOf(hs: seq<Holder>, a: string): real
    decreases |hs|
  {
    if hs == [] then 0.0
    else
      var h := hs[|hs| - 1];
      if h.address != "" && Lower(h.address) == a then
        (if h.balance.Some? then h.balance.value else 0.0)
      else BalanceOf(hs[..|hs| - 1], a)
  }

  /** A transfer that the loop at lines 432-452 does not skip. */
  predicate Applies(t: Transfer) {
    t.amount.Some? && t.time.Some?
  }

  /** Lines 441-451: the sender's record sells, then the receiver's record
      buys; only addresses that already have a record are touched. */
  function Apply(m: map<string, Activity>, t: Transfer): map<string, Activity> {
    if !Applies(t) then m
    else
      var amount := t.amount.value;
      var s, r := Lower(t.sender), Lower(t.receiver);
      var m1 :=
        if s != "" && s in m then
          m[s := m[s].(sells := m[s].sells + amount, netAmount := m[s].netAmount - amount, lastActivity := t.time)]
        else m;
      if r != "" && r in m1 then
        m1[r := m1[r].(buys := m1[r].buys + amount, netAmount := m1[r].netAmount + amount, lastActivity := t.time)]
      else m1
  }

  function ApplyAll(m: map<string, Activity>, txs: seq<Transfer>): map<string, Activity>
    decreases |txs|
  {
    if txs == [] then m else Apply(ApplyAll(m, txs[..|txs| - 1]), txs[|txs| - 1])
  }

  /** Amount that address `a` received over the applied transfers. */
  function Bought(a: string, txs: seq<Transfer>): real
    decreases |txs|
  {
    if txs == [] then 0.0
    else
      var t := txs[|txs| - 1];
      Bought(a, txs[..|txs| - 1]) + if Applies(t) && Lower(t.receiver) == a then t.amount.value else 0.0
  }

  /** Amount that address `a` sent over the applied transfers. */
  function Sold(a: string, txs: seq<Transfer>): real
    decreases |txs|
  {
    if txs == [] then 0.0
    else
      var t := txs[|txs| - 1];
      Sold(a, txs[..|txs| - 1]) + if Applies(t) && Lower(t.sender) == a then t.amount.value else 0.0
  }

  /** The time of the last applied transfer that has `a` on either side. */
  function LastTouch(a: string, txs: seq<Transfer>): Option<int>
    decreases |txs|
  {
    if txs == [] then None
    else
      var t := txs[|txs| - 1];
      if Applies(t) && (Lower(t.sender) == a || Lower(t.receiver) == a) then t.time
      else LastTouch(a, txs[..|txs| - 1])
  }

  /** The initial records: one per tracked address, all zero, no activity,
      and the balance of the last holder entry with that address. */
  lemma {:induction false} InitialFacts(hs: seq<Holder>)
    ensures Initial(hs).Keys == Tracked(hs)
    ensures forall a :: a in Initial(hs) ==>
              var e := Initial(hs)[a];
              e.buys == 0.0 && e.sells == 0.0 && e.netAmount == 0.0 && e.lastActivity == None
    ensures forall a :: a in Initial(hs) ==> Initial(hs)[a].balance == BalanceOf(hs, a)
    ensures "" !in Initial(hs)
    decreases |hs|
  {
    if hs != [] {
      InitialFacts(hs[..|hs| - 1]);
      LowerEmpty(hs[|hs| - 1].address);
    }
  }

  /** No transfer adds or removes a record: untracked parties are ignored. */
  lemma {:induction false} ApplyAllKeys(m: map<string, Activity>, txs: seq<Transfer>)
    ensures ApplyAll(m, txs).Keys == m.Keys
    decreases |txs|
  {
    if txs != [] {
      ApplyAllKeys(m, txs[..|txs| - 1]);
    }
  }

  /** What one transfer does to the record of a tracked address `a`. */
  lemma ApplyEffect(m0: map<string, Activity>, t: Transfer, a: string)
    requires a in m0 && a != ""
    ensures a in Apply(m0, t)
    ensures var e, e0 := Apply(m0, t)[a], m0[a];
      var bought := if Applies(t) && Lower(t.receiver) == a then t.amount.value else 0.0;
      var sold := if Applies(t) && Lower(t.sender) == a then t.amount.value else 0.0;
      && e.buys == e0.buys + bought
      && e.sells == e0.sells + sold
      && e.netAmount == e0.netAmount + bought - sold
      && e.balance == e0.balance
      && e.lastActivity ==
           if Applies(t) && (Lower(t.sender) == a || Lower(t.receiver) == a) then t.time else e0.lastActivity
  {
  }

  /** After any transfer sequence, the record of a tracked address has grown
      its buys and sells by exactly what the address received and sent, keeps
      its balance, and holds as last activity the time of the last transfer
      that touched it. */
  lemma {:induction false} ApplyAllFacts(m: map<string, Activity>, txs: seq<Transfer>, a: string)
    requires a in m && a != ""
    ensures a in ApplyAll(m, txs)
    ensures var e, e0 := ApplyAll(m, txs)[a], m[a];
      && e.buys == e0.buys + Bought(a, txs)
      && e.sells == e0.sells + Sold(a, txs)
      && e.netAmount == e0.netAmount + Bought(a, txs) - Sold(a, txs)
      && e.balance == e0.balance
      && e.lastActivity == if LastTouch(a, txs).Some? then LastTouch(a, txs) else e0.lastActivity
    decreases |txs|
  {
    if txs != [] {
      var pre, t := txs[..|txs| - 1], txs[|txs| - 1];
      ApplyAllFacts(m, pre, a);
      ApplyEffect(ApplyAll(m, pre), t, a);
    }
  }

  /** Lines 418-430. */
  method InitialActivity(hs: seq<Holder>) returns (activity: map<string, Activity>)
    ensures activity == Initial(hs)
  {
    activity := map[];
    var i := 0;
    while i < |hs|
      invariant 0 <= i <= |hs|
      invariant activity == Initial(hs[..i])
    {
      var h := hs[i];
      if h.address != "" {
        var address := Lower(h.address);
        activity := activity[address := Activity(0.0, 0.0, 0.0, None, if h.balance.Some? then h.balance.value else 0.0)];
      }
      assert hs[..i + 1][..i] == hs[..i];
      i := i + 1;
    }
    assert hs[..|hs|] == hs;
  }

  /** Lines 432-452. */
  method ApplyTransfers(init: map<string, Activity>, txs: seq<Transfer>) returns (activity: map<string, Activity>)
    ensures activity == ApplyAll(init, txs)
  {
    activity := init;
    var j := 0;
    while j < |txs|
      invariant 0 <= j <= |txs|
      invariant activity == ApplyAll(init, txs[..j])
    {
      ghost var before := activity;
      var tx := txs[j];
      if tx.amount.Some? && tx.time.Some? {
        var amount := tx.amount.value;
        var senderLower := Lower(tx.sender);
        var receiverLower := Lower(tx.receiver);
        if senderLower != "" && senderLower in activity {
          var e := activity[senderLower];
          activity := activity[senderLower := e.(sells := e.sells + amount, netAmount := e.netAmount - amount, lastActivity := tx.time)];
        }
        if receiverLower != "" && receiverLower in activity {
          var e := activity[receiverLower];
          activity := activity[receiverLower := e.(buys := e.buys + amount, netAmount := e.netAmount + amount, lastActivity := tx.time)];
        }
      }
      assert activity == Apply(before, tx);
      assert txs[..j + 1][..j] == txs[..j];
      j := j + 1;
    }
    assert txs[..|txs|] == txs;
  }

  /** `processTransactions(transactions, holders)`; `None` stands for a
      null argument, which the optional chaining treats as empty. */
  method ProcessTransactions(transactions: Option<seq<Transfer>>, holders: Option<seq<Holder>>)
    returns (activity: map<string, Activity>)
    ensures var hs := if holders.Some? then holders.value else [];
      var txs := if transactions.Some? then transactions.value else [];
      && activity.Keys == Tracked(hs)
      && forall a :: a in activity ==>
           && activity[a].buys == Bought(a, txs)
           && activity[a].sells == Sold(a, txs)
           && activity[a].netAmount == activity[a].buys - activity[a].sells
           && activity[a].lastActivity == LastTouch(a, txs)
           && activity[a].balance == BalanceOf(hs, a)
  {
    var hs := if holders.Some? then holders.value else [];
    var txs := if transactions.Some? then transactions.value else [];
    var init := InitialActivity(hs);
    InitialFacts(hs);
    activity := ApplyTransfers(init, txs);
    ApplyAllKeys(init, txs);
    forall a | a in init {
      ApplyAllFacts(init, txs, a);
    }
  }
}
