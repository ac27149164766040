/**
 * Records delivered by the embedded Lightning node library, and the
 * first-match search by payment hash that both the store and the
 * receive screen perform over a list of invoices.
 */
module Ldk {
  import opened Wrappers

  /** A Lightning invoice (BOLT 11 payment request) as the node reports it. */
  datatype Invoice = Invoice(
    paymentHash: string,
    payeePubKey: string,
    amountSats: Option<int>,
    description: string,
    timestamp: int,     // seconds since the epoch
    expiryTime: int,    // seconds after `timestamp`
    toStr: string)      // the encoded payment request

  /** A channel; its fields other than the id are opaque to the store. */
  datatype Channel = Channel(channelId: string, counterpartyNodeId: string, balanceSat: int, isUsable: bool)

  /**
   * `findIndex` with the predicate "payment hash equals `hash`":
   * the index of the first invoice carrying `hash`, or -1 when none does.
   */
  function FirstIndexOf(invoices: seq<Invoice>, hash: string): (r: int)
    ensures -1 <= r < |invoices|
    ensures r == -1 <==> forall k :: 0 <= k < |invoices| ==> invoices[k].paymentHash != hash
    ensures 0 <= r ==> invoices[r].paymentHash == hash
    ensures 0 <= r ==> forall k :: 0 <= k < r ==> invoices[k].paymentHash != hash
  {
    if |invoices| == 0 then -1
    else if invoices[0].paymentHash == hash then 0
    else
      var rest := FirstIndexOf(invoices[1..], hash);
      if rest == -1 then -1 else rest + 1
  }
}
