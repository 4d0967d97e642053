/** `formatAddress` of src/utils/formatting.js. */
module Formatting {
  import opened Records

  function Min(a: nat, b: nat): nat {
    if a < b then a else b
  }

  /** The first six characters, "...", and the last four; a short address
      shows its characters in both parts. */
  function FormatAddress(address: string): (r: string)
    ensures |r| == Min(6, |address|) + 3 + Min(4, |address|)
    ensures r[..Min(6, |address|)] == address[..Min(6, |address|)]
    ensures r[Min(6, |address|)..Min(6, |address|) + 3] == "..."
    ensures r[|r| - Min(4, |address|)..] == address[|address| - Min(4, |address|)..]
    ensures |address| >= 6 ==> |r| == 13
  {
    JsSlice(address, 0, 6) + "..." + JsSlice(address, -4, |address|)
  }
}
