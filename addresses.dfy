/** Address classification of src/App.js: the fixed router and pool lists,
    and the BUY / SELL / TRANSFER label of the transactions table. */
module Addresses {
  import opened Records

  /** The pool list of `isPoolAddress`. The literals are already lower case,
      so the source's `.map(addr => addr.toLowerCase())` leaves them as they
      are. */
  const PoolAddresses: seq<string> := [
    "0x8d58e202016122aae65be55694dbce1b810b4072",
    "0xba12222222228d8ba445958a75a0704d566bf2c8",
    "0x1caa19d70820cb61e78319759fac46c8c52f8809",
    "0xfa4a4c553733f2e0c54f1c4b0ddc1fa2f5f10ce6"
  ]

  predicate IsPoolAddress(address: string) {
    Lower(address) in PoolAddresses
  }

  /** `isDEXAddress`: `routers` is the lower-cased list of known router
      addresses that the source looks the lower-cased address up in. */
  predicate IsDEXAddress(routers: seq<string>, address: string) {
    var a := Lower(address);
    a in routers || IsPoolAddress(a)
  }

  /** Both classifiers ignore the case of their argument. */
  lemma {:induction false} ClassifiersIgnoreCase(routers: seq<string>, address: string)
    ensures IsPoolAddress(Lower(address)) == IsPoolAddress(address)
    ensures IsDEXAddress(routers, Lower(address)) == IsDEXAddress(routers, address)
  {
    LowerIdempotent(address);
  }

  /** Every pool is a DEX address, whatever the router list. */
  lemma {:induction false} PoolIsDEX(routers: seq<string>, address: string)
    ensures IsPoolAddress(address) ==> IsDEXAddress(routers, address)
  {
    LowerIdempotent(address);
  }

  datatype TxType = BUY | SELL | TRANSFER

  /** The label of one row of the transactions table. The pool tests add
      nothing to the DEX tests, and the sender is looked at first: a
      DEX-to-DEX transfer is a BUY. */
  function TransactionType(routers: seq<string>, sender: string, receiver: string): (r: TxType)
    ensures r == BUY <==> IsDEXAddress(routers, sender)
    ensures r == SELL <==> !IsDEXAddress(routers, sender) && IsDEXAddress(routers, receiver)
    ensures r == TRANSFER <==> !IsDEXAddress(routers, sender) && !IsDEXAddress(routers, receiver)
  {
    PoolIsDEX(routers, sender);
    PoolIsDEX(routers, receiver);
    if IsDEXAddress(routers, sender) || IsPoolAddress(sender) then BUY
    else if IsDEXAddress(routers, receiver) || IsPoolAddress(receiver) then SELL
    else TRANSFER
  }
}
