/**
 * The receive screen: on opening it makes sure the node is up, asks the node
 * for an invoice, adopts the store's copy of that invoice, and shows its
 * payment request and expiry.
 */
module Receive {
  import opened Wrappers
  import opened Ldk
  import JsNumber

  /** The expiry the screen shows before any invoice arrives. */
  const InitialExpiry := 3600
  /** The expiry, in seconds, requested for every invoice. */
  const RequestedExpirySeconds := 3600

  /** The `amount` route parameter, falling back to "0" when absent or empty. */
  function AmountOrDefault(param: Option<string>): (amount: string)
    ensures amount != ""
    ensures param.Some? && param.value != "" ==> amount == param.value
    ensures param.None? || param.value == "" ==> amount == "0"
  {
    if param.None? || param.value == "" then "0" else param.value
  }

  /** The calls made to the node, in order; `amountSats` is `None` when the amount parses to NaN. */
  datatype NodeCall =
    | IsLdkRunning
    | StartLightning
    | WaitForLdk
    | AddPeers
    | CreateLightningInvoice(amountSats: Option<int>, description: string, expiryDeltaSeconds: int)

  /** The invoice request: the parsed amount, an empty description and a one-hour expiry. */
  function InvoiceRequest(amountSats: Option<int>): NodeCall
  {
    CreateLightningInvoice(amountSats, "", RequestedExpirySeconds)
  }

  /** The calls issued before the invoice result is known. */
  function FetchCalls(ldkUp: bool, amountSats: Option<int>): (calls: seq<NodeCall>)
    ensures |calls| == (if ldkUp then 4 else 5) && calls[0] == IsLdkRunning
    ensures StartLightning in calls <==> !ldkUp
    ensures calls[|calls| - 1] == InvoiceRequest(amountSats)
    ensures calls[|calls| - 3] == WaitForLdk && calls[|calls| - 2] == AddPeers
  {
    var request := InvoiceRequest(amountSats);
    if ldkUp then [IsLdkRunning, WaitForLdk, AddPeers, request]
    else [IsLdkRunning, StartLightning, WaitForLdk, AddPeers, request]
  }

  /** The invoice is requested once, as the last call, after the node has been awaited. */
  lemma InvoiceRequestedLast(ldkUp: bool, amountSats: Option<int>)
    ensures var calls := FetchCalls(ldkUp, amountSats);
      forall k :: 0 <= k < |calls| - 1 ==> !calls[k].CreateLightningInvoice?
  {
  }

  /** The default amount asks the node for a zero-satoshi invoice. */
  lemma DefaultAmountRequestsZero()
    ensures InvoiceRequest(JsNumber.ParseInt(AmountOrDefault(None))) == CreateLightningInvoice(Some(0), "", 3600)
  {
    assert AmountOrDefault(None) == JsNumber.DecimalString(0);
    JsNumber.ParseIntOfDecimal(0);
  }

  /** A decimal amount parameter is requested as that number of satoshis. */
  lemma DecimalAmountRequested(n: nat)
    ensures InvoiceRequest(JsNumber.ParseInt(AmountOrDefault(Some(JsNumber.DecimalString(n)))))
         == CreateLightningInvoice(Some(n), "", RequestedExpirySeconds)
  {
    var d := JsNumber.DecimalString(n);
    assert AmountOrDefault(Some(d)) == d;
    JsNumber.ParseIntOfDecimal(n);
  }

  /** `find` by payment hash: the first stored invoice carrying `hash`. */
  function FindByHash(stored: seq<Invoice>, hash: string): (r: Option<Invoice>)
    ensures r.None? <==> forall k :: 0 <= k < |stored| ==> stored[k].paymentHash != hash
    ensures r.Some? ==> r.value.paymentHash == hash
  {
    var i := FirstIndexOf(stored, hash);
    if i == -1 then None else Some(stored[i])
  }

  /** The adopted invoice is the first stored one with the hash: every earlier entry has another hash. */
  lemma FindByHashIsFirst(stored: seq<Invoice>, hash: string)
    requires FindByHash(stored, hash).Some?
    ensures exists k :: 0 <= k < |stored| && stored[k] == FindByHash(stored, hash).value &&
                        forall j :: 0 <= j < k ==> stored[j].paymentHash != hash
  {
    var k := FirstIndexOf(stored, hash);
    assert stored[k] == FindByHash(stored, hash).value;
  }

  /** The screen's invoice: still null, set to undefined by a failed lookup, or an invoice. */
  datatype InvoiceSlot = NullInvoice | UndefinedInvoice | Held(invoice: Invoice)

  /** The payment request: `lightning:` and the encoded invoice, which a template renders as `undefined` when missing. */
  function PaymentUri(slot: InvoiceSlot): (uri: string)
    ensures "lightning:" <= uri
    ensures slot.Held? ==> uri == "lightning:" + slot.invoice.toStr
    ensures !slot.Held? ==> uri == "lightning:undefined"
  {
    "lightning:" + (if slot.Held? then slot.invoice.toStr else "undefined")
  }

  /** The clipboard text as the source computes it: the payment request, or "" if that string were empty. */
  function ClipboardTextAsWritten(slot: InvoiceSlot): (text: string)
    ensures text == PaymentUri(slot)
  {
    var uri := PaymentUri(slot);
    if uri != "" then uri else ""
  }

  /** The empty-string fallback can never be chosen: without an invoice the clipboard gets `lightning:undefined`. */
  lemma ClipboardFallbackUnreachable()
    ensures ClipboardTextAsWritten(UndefinedInvoice) == "lightning:undefined"
    ensures forall slot :: ClipboardTextAsWritten(slot) != ""
  {
  }

  /** The clipboard text with the fallback applied as intended: empty exactly when there is no invoice. */
  function ClipboardText(slot: InvoiceSlot): (text: string)
    ensures text == "" <==> !slot.Held?
    ensures slot.Held? ==> text == "lightning:" + slot.invoice.toStr
  {
    if slot.Held? then PaymentUri(slot) else ""
  }

  /** The screen's displayed state. */
  datatype ScreenState = ScreenState(isLoading: bool, invoice: InvoiceSlot, timestamp: int, expiry: int, errorBannerShown: bool)

  class ReceiveScreen {
    const amount: string
    /** `amount` parsed as the invoice request reads it (the amount is assumed fixed for the screen's lifetime). */
    const amountSats: Option<int>
    var isLoading: bool
    var invoice: InvoiceSlot
    var timestamp: int
    var expiry: int
    /** Whether the error banner has been shown. */
    var errorBannerShown: bool
    /** The node calls issued so far. */
    var nodeCalls: seq<NodeCall>
    /** The last text copied to the clipboard. */
    var clipboard: Option<string>

    /** What the screen displays. */
    function Shown(): ScreenState
      reads this
    {
      ScreenState(isLoading, invoice, timestamp, expiry, errorBannerShown)
    }

    /** When the invoice expires, in epoch seconds (shown humanized). */
    function InvoiceExpires(): int
      reads this
    {
      timestamp + expiry
    }

    /** The value encoded in the QR code. */
    function QrValue(): string
      reads this
    {
      PaymentUri(invoice)
    }

    constructor (amountParam: Option<string>)
      ensures amount == AmountOrDefault(amountParam) && amountSats == JsNumber.ParseInt(amount)
      ensures isLoading && invoice == NullInvoice && timestamp == 0 && expiry == InitialExpiry
      ensures InvoiceExpires() == 3600
      ensures !errorBannerShown && nodeCalls == [] && clipboard == None
    {
      amount := AmountOrDefault(amountParam);
      amountSats := JsNumber.ParseInt(AmountOrDefault(amountParam));
      isLoading := true;
      invoice := NullInvoice;
      timestamp := 0;
      expiry := InitialExpiry;
      errorBannerShown := false;
      nodeCalls := [];
      clipboard := None;
    }

    /**
     * One run of the fetch: `ldkUp` is what the running check returns,
     * `created` what invoice creation returns, `stored` the store's invoice
     * list read afterwards.
     */
    method FetchInvoice(ldkUp: bool, created: Result<Invoice, string>, stored: seq<Invoice>)
      modifies this
      ensures nodeCalls == old(nodeCalls) + FetchCalls(ldkUp, amountSats)
      ensures clipboard == old(clipboard)
      ensures created.Err? ==> Shown() == old(Shown())
      ensures created.Ok? && FindByHash(stored, created.value.paymentHash).Some? ==>
        var m := FindByHash(stored, created.value.paymentHash).value;
        Shown() == old(Shown()).(isLoading := false, invoice := Held(m), timestamp := m.timestamp, expiry := m.expiryTime)
        && InvoiceExpires() == m.timestamp + m.expiryTime && QrValue() == "lightning:" + m.toStr
      ensures created.Ok? && FindByHash(stored, created.value.paymentHash).None? ==>
        Shown() == old(Shown()).(isLoading := false, invoice := UndefinedInvoice, errorBannerShown := true)
        && QrValue() == "lightning:undefined"
    {
      // Check the node, start it only if it is not running, wait for it, connect peers, request the invoice.
      nodeCalls := nodeCalls + FetchCalls(ldkUp, amountSats);
      if created.Err? {
        return;
      }
      var matching := FindByHash(stored, created.value.paymentHash);
      isLoading := false;
      invoice := if matching.Some? then Held(matching.value) else UndefinedInvoice;
      if matching.None? {
        // Reading the timestamp of the missing invoice throws; the handler shows the banner.
        errorBannerShown := true;
        return;
      }
      timestamp := matching.value.timestamp;
      expiry := matching.value.expiryTime;
    }

    /** Copies the payment request to the clipboard, as written: the QR value, even without an invoice. */
    method PressQr()
      modifies this
      ensures clipboard == Some(ClipboardTextAsWritten(invoice)) && clipboard == Some(QrValue())
      ensures !invoice.Held? ==> clipboard == Some("lightning:undefined")
      ensures Shown() == old(Shown()) && nodeCalls == old(nodeCalls)
    {
      clipboard := Some(ClipboardTextAsWritten(invoice));
    }
  }
}
