# EttaWallet Lightning core, modelled in Dafny

EttaWallet is a mobile Lightning wallet built around an embedded LDK node. This project models four parts of its client:

- **The Lightning store** (`src/state/models/lightning.ts`). It holds one record: the node state, the `nodeStarted` flag, the node id, the LDK version, the invoice list, the channel map, the open-channel-id list, the payment map, the peers and the claimable balance. Each reducer action updates that record in place. Here the store is the class `Lightning.LightningStore`, and each action is a method. Every method ties the new record (`Snapshot()`) to the old one with `old(Snapshot()).(field := …)`, so what changes is stated exactly and nothing else changes. The non-trivial updates have pure meanings, and lemmas about those meanings carry the properties:
  - `RemoveFirst`: find the first invoice with a hash and splice it out.
  - `Unseen`: the de-duplicating, order-preserving append of open channel ids.
  - `MergeChannels`: the object-spread merge of channel maps.
  - `Classify` and `RecordPayment`: the payment-direction rule.
- **The start-up route** of the main stack (`src/navigation/Navigator.tsx`). One pure function chooses one of four screens from the onboarding flags and the node flag. The loading view shows only while no route is set.
- **The welcome screen's next step** (`src/screens/WelcomeScreen.tsx`). A pure rule picks the next screen from the disclaimer, PIN and biometry inputs. The class `Welcome.WelcomeScreen` records the create/restore choice and then navigates. It logs its effects in order.
- **The receive screen's invoice fetch** (`src/screens/ReceiveScreen.tsx`). The class `Receive.ReceiveScreen` keeps the screen state: loading, invoice, timestamp, expiry and error banner. `FetchInvoice` runs as the source does:
  1. It checks the node and starts it only if it is not running.
  2. It waits for the node and connects peers.
  3. It requests the invoice, and returns early if that fails.
  4. It adopts the first stored invoice with the returned payment hash. If none matches, it fails the way the source does.

  The amount goes through a model of JavaScript's `parseInt(s, 10)` (`JsNumber`).

Node calls (`isLdkRunning`, `startLightning`, `waitForLdk`, `addPeers`, `createLightningInvoice`) and the store's invoice list are inputs. So are key-value storage reads. Navigation is recorded as an effect value.

What the code does, and what follows from it:
- `updateChannels` filters the payload's open-channel ids only against the old list (the comment at `src/state/models/lightning.ts:108` says it checks whether a channel is already in that list). So an id repeated inside one payload is appended twice (`Lightning.PayloadDuplicateKept`, `Lightning.UnseenCount`). When neither side repeats an id, the merged list repeats none (`Lightning.MergeIdsNoDuplicates`).
- `addInvoice` pushes the invoice without checking its payment hash. Appending a hash already listed breaks hash uniqueness (`Lightning.AppendKnownHashDuplicates`).
- With no node id, the comparison at `src/state/models/lightning.ts:123` is against `null`, so the payment is recorded as `sent` (`Lightning.Classify`).
- `removeExpiredInvoices` filters nothing. It stores the list it is given.
- The main stack registers no `RestoreWalletScreen`, although the start-up route can choose it (`Navigation.InitialRouteRegistered`).

## Model

| member | source | states |
|---|---|---|
| Lightning.LightningStore.constructor | src/state/models/lightning.ts:44-57 | the store starts offline, not started, with no node id, empty version strings, empty collections and a zero balance |
| Lightning.LightningStore.SetNodeId | src/state/models/lightning.ts:59-61 | the node id becomes the payload; nothing else changes |
| Lightning.LightningStore.SetLdkVersion | src/state/models/lightning.ts:62-64 | the version becomes the payload; nothing else changes |
| Lightning.LightningStore.SetLdkState | src/state/models/lightning.ts:79-84 | the state becomes the payload; `nodeStarted` becomes true on `Complete` and otherwise keeps its value, so this action never clears it |
| Lightning.LightningStore.SetNodeStarted | src/state/models/lightning.ts:85-87 | the flag becomes the payload; nothing else changes |
| Lightning.LightningStore.AddInvoice | src/state/models/lightning.ts:88-90 | the new list is the old list followed by the invoice, with no check for a repeated hash |
| Lightning.AppendKnownHashDuplicates | src/state/models/lightning.ts:88-90 | appending an invoice whose hash is already listed makes the list's hashes no longer unique |
| Ldk.FirstIndexOf | src/state/models/lightning.ts:92 | the index of the first invoice with the hash, or -1 exactly when no invoice has it |
| Lightning.RemoveFirst | src/state/models/lightning.ts:91-96 | the reference meaning of `removeInvoice`: the list with its first invoice carrying the hash taken out, if there is one; its properties are the `RemoveFirst…` lemmas in the rows below |
| Lightning.RemoveFirstShrinks | src/state/models/lightning.ts:91-96 | removal by hash (`RemoveFirst`, the reference meaning of the action) keeps every invoice but at most one (a sub-multiset of the list) and is at most one shorter |
| Lightning.LightningStore.RemoveInvoice | src/state/models/lightning.ts:91-96 | the list becomes `RemoveFirst` of the old list; nothing else changes |
| Lightning.RemoveFirstAbsent | src/state/models/lightning.ts:93-95 | when no invoice carries the hash, removal leaves the list unchanged |
| Lightning.RemoveFirstAt | src/state/models/lightning.ts:92-94 | removal takes out exactly the element at the first matching index; everything before and after keeps its order |
| Lightning.RemoveFirstMultiset | src/state/models/lightning.ts:91-96 | removal deletes exactly one invoice (the first match) and shortens the list by one |
| Lightning.LightningStore.UpdateInvoices | src/state/models/lightning.ts:97-99 | an in-range index replaces just that element and keeps the length; the index just past the end appends; a negative index changes no element |
| Lightning.LightningStore.RemoveExpiredInvoices | src/state/models/lightning.ts:100-102 | the list is replaced wholesale by the payload, with no filtering; nothing else changes |
| Lightning.RemoveExpiredTwice | src/state/models/lightning.ts:100-102 | storing the same list twice leaves the store as storing it once |
| Lightning.MergeChannels | src/state/models/lightning.ts:104-107 | payload keys take the payload's value; other old keys keep theirs; the key set is the union; a missing payload map leaves the channels unchanged |
| Lightning.Unseen | src/state/models/lightning.ts:109-110 | the filtered ids are no more than the payload and none of them is in the old list |
| Lightning.UnseenMembers | src/state/models/lightning.ts:110 | an id is appended exactly when it is in the payload and not in the old list |
| Lightning.UnseenAppend | src/state/models/lightning.ts:110-111 | the filter distributes over concatenation, so appended ids keep payload order |
| Lightning.UnseenNoDuplicates | src/state/models/lightning.ts:110 | a payload without repeats yields appended ids without repeats |
| Lightning.UnseenCount | src/state/models/lightning.ts:109-110 | for every id, the filter keeps it as often as the payload holds it when it is not in the old list, and never when it is |
| Lightning.UnseenOfKnown | src/state/models/lightning.ts:110 | when every payload id is already known, nothing is appended |
| Lightning.MergeIdsNoDuplicates | src/state/models/lightning.ts:108-111 | with no repeats in the old list or the payload, the merged list has no repeats |
| Lightning.MergeIdsIdempotent | src/state/models/lightning.ts:108-111 | after a merge every payload id is present, and merging the same payload again appends nothing |
| Lightning.PayloadDuplicateKept | src/state/models/lightning.ts:109-111 | an id that occurs twice in the payload and not in the old list is appended twice |
| Lightning.LightningStore.UpdateChannels | src/state/models/lightning.ts:103-112 | the channels become the merge; the open ids become the old ids followed by the unseen payload ids; they stay duplicate-free when both sides are; nothing else changes |
| Lightning.LightningStore.UpdateClaimableBalance | src/state/models/lightning.ts:113-115 | the balance becomes the payload (last write wins); nothing else changes |
| Lightning.Classify | src/state/models/lightning.ts:121-125 | received if and only if the node id is set and equals the payee key; with no node id, sent |
| Lightning.RecordPayment | src/state/models/lightning.ts:117-127 | the entry under the invoice's hash holds the invoice and its direction, overwriting any earlier one; other keys are untouched; the key set grows by the hash only |
| Lightning.RecordPaymentIdempotent | src/state/models/lightning.ts:116-128 | recording the same payment twice gives the same map as recording it once |
| Lightning.LightningStore.AddPayment | src/state/models/lightning.ts:116-128 | the payments become `RecordPayment` of the old map with the current node id; the payload's own direction is ignored; nothing else changes |
| Lightning.LightningStore.AddPeer | src/state/models/lightning.ts:129-131 | the peer is appended to the peer list; nothing else changes |
| Navigation.InitialRoute | src/navigation/Navigator.tsx:133-141 | an unacknowledged disclaimer or an unset PIN gives the welcome screen; otherwise a node that is not up gives the restore screen if restore was chosen and the start-node screen if not; a node that is up gives the drawer; the result is always one of these four |
| Navigation.RouteIgnoresOnboardingProgress | src/navigation/Navigator.tsx:127-147 | `userStarted` and `seenSlides` are effect dependencies but never change the route |
| Navigation.RestoreChoiceOnlyWhenNodeDown | src/navigation/Navigator.tsx:134-139 | the restore choice changes the route only when the disclaimer is acknowledged, the PIN is set and the node is not up |
| Navigation.AfterEffect | src/navigation/Navigator.tsx:142 | once the effect has run, a route is set and it is one of the four start-up routes |
| Navigation.Render | src/navigation/Navigator.tsx:149-154 | the loading view is rendered exactly when the route is undefined; otherwise the stack is given the route as its `initialRouteName` |
| Navigation.InitialRouteRegistered | src/navigation/Navigator.tsx:95-159 | the chosen route is one of the screens the main stack registers on every path except the restore branch, whose `RestoreWalletScreen` is not registered |
| Navigation.LoadingOnlyBeforeEffect | src/navigation/Navigator.tsx:123-151 | the initial undefined route shows the loading view; after the effect the stack is shown |
| Welcome.NextScreen | src/screens/WelcomeScreen.tsx:24-38 | no disclaimer leads to the disclaimer; a stored `Unset` PIN leads to PIN setup; biometry setup is chosen if and only if biometry is supported and both stored flags are present and false; otherwise the drawer |
| Welcome.AbsentBiometricFlagSkipsBiometry | src/screens/WelcomeScreen.tsx:29-37 | a biometric flag missing from storage sends the user to the drawer, because the test is strict equality with `false` |
| Welcome.WelcomeScreen.NavigateNext | src/screens/WelcomeScreen.tsx:24-38 | issues one navigation to `NextScreen` and leaves the choice flag alone |
| Welcome.WelcomeScreen.SetChoseRestore | src/screens/WelcomeScreen.tsx:22 | writes the store's restore choice |
| Welcome.WelcomeScreen.CreateWalletHandler | src/screens/WelcomeScreen.tsx:40-43 | sets the choice to false, then navigates to `NextScreen` of the inputs |
| Welcome.WelcomeScreen.RestoreWalletHandler | src/screens/WelcomeScreen.tsx:45-48 | sets the choice to true, then navigates to the same `NextScreen` of the inputs |
| Receive.AmountOrDefault | src/screens/ReceiveScreen.tsx:44 | a missing or empty amount parameter becomes "0"; any other value is kept |
| Receive.ReceiveScreen.constructor | src/screens/ReceiveScreen.tsx:39-44 | loading, a null invoice, timestamp 0 and expiry 3600 (so the shown expiry is 3600) and no banner |
| Receive.ReceiveScreen.InvoiceExpires | src/screens/ReceiveScreen.tsx:64 | the expiry the screen shows is the timestamp plus the expiry duration; its values are stated by the constructor (3600) and by `FetchInvoice` (the adopted invoice's timestamp plus expiry time) |
| Receive.FetchCalls | src/screens/ReceiveScreen.tsx:76-90 | the call list begins with the running check; it has four calls when the node was running and five when it was not, the start call being present exactly in the second case; it ends with waiting, peer connection and then the invoice request, so each call is made once |
| Receive.InvoiceRequest | src/screens/ReceiveScreen.tsx:86-90 | the invoice request carries the parsed amount, an empty description and a 3600-second expiry (its properties are stated through `Receive.DefaultAmountRequestsZero` and `Receive.DecimalAmountRequested`) |
| Receive.InvoiceRequestedLast | src/screens/ReceiveScreen.tsx:80-90 | no invoice request is made before the last call |
| Receive.DefaultAmountRequestsZero | src/screens/ReceiveScreen.tsx:44-90 | with no amount, the node is asked for 0 satoshis, an empty description and a 3600-second expiry |
| Receive.DecimalAmountRequested | src/screens/ReceiveScreen.tsx:86-90 | a decimal amount is requested as that many satoshis |
| JsNumber.ParseInt | src/screens/ReceiveScreen.tsx:87 | `parseInt(s, 10)`: leading white space is skipped, an optional sign is read, then the longest run of decimal digits; no digits gives NaN (`None`); the screen applies it to the amount directly (constructor and `InvoiceRequest`); its properties are the lemmas in the rows below |
| JsNumber.ParseIntDecimal | src/screens/ReceiveScreen.tsx:87 | `parseInt` reads back a decimal numeral and ignores any non-digit text after it |
| JsNumber.ParseIntOfDecimal | src/screens/ReceiveScreen.tsx:87 | `parseInt` of a decimal numeral is its value |
| JsNumber.ParseIntNegative | src/screens/ReceiveScreen.tsx:87 | a leading minus sign negates the numeral |
| JsNumber.ParseIntPositive | src/screens/ReceiveScreen.tsx:87 | a leading plus sign is read and leaves the numeral's value unchanged |
| JsNumber.ParseIntSkipsWhiteSpace | src/screens/ReceiveScreen.tsx:87 | leading white space does not change the result |
| JsNumber.ParseIntNoDigits | src/screens/ReceiveScreen.tsx:87 | text that starts with neither a digit, a sign nor white space parses to NaN |
| Receive.FindByHash | src/screens/ReceiveScreen.tsx:99-103 | finds nothing exactly when no stored invoice has the hash; otherwise the invoice found has that hash |
| Receive.FindByHashIsFirst | src/screens/ReceiveScreen.tsx:101-103 | the invoice found is the first stored one with the hash |
| Receive.ReceiveScreen.FetchInvoice | src/screens/ReceiveScreen.tsx:72-124 | records the node calls; on a creation error nothing shown changes; on a match it clears loading and adopts the stored invoice's record, timestamp and expiry, so the shown expiry is their sum and the QR value is `lightning:` plus its encoded request; without a match it clears loading, sets the invoice to undefined (the QR value becomes `lightning:undefined`), keeps timestamp and expiry and shows the error banner |
| Receive.PaymentUri | src/screens/ReceiveScreen.tsx:144 | the QR value always starts with `lightning:`, followed by the invoice's encoded request, or by `undefined` when there is no invoice |
| Receive.ReceiveScreen.QrValue | src/screens/ReceiveScreen.tsx:144 | the QR code encodes the payment URI of the screen's invoice; `FetchInvoice` states its value after a match and after a failed lookup |
| Receive.ClipboardTextAsWritten | src/screens/ReceiveScreen.tsx:128 | the clipboard text as written is always the payment request string |
| Receive.ClipboardFallbackUnreachable | src/screens/ReceiveScreen.tsx:128 | the empty-string fallback is never chosen; with no invoice the text is `lightning:undefined` |
| Receive.ClipboardText | src/screens/ReceiveScreen.tsx:128 | the corrected text: empty exactly when there is no invoice, and otherwise `lightning:` followed by the encoded request (`PressQr` keeps the code's behaviour and does not use it) |
| Receive.ReceiveScreen.PressQr | src/screens/ReceiveScreen.tsx:126-130 | copies the clipboard text as written, which is the QR value; with no invoice that is `lightning:undefined`; the shown state and the node calls are unchanged |

## Left out

- The `startLdk` thunk (src/state/models/lightning.ts:65-78) is asynchronous. It is built only from foreign node calls.
- The bodies of `isLdkRunning`, `startLightning`, `waitForLdk`, `addPeers`, `createLightningInvoice` and `getLightningStore` are not part of this model. Their results are method inputs.
- Receive.ReceiveScreen.FetchInvoice: treats the node calls as never throwing. Only the failed lookup reaches the error handler. The banner's message text is not modelled.
- Receive.ReceiveScreen.FetchInvoice: treats React state setters as immediate assignments. Re-renders, and re-running the effect when the amount changes, are not modelled. The amount is parsed once per screen: the model assumes it stays fixed, although the effect's dependency on `amount` re-runs the fetch when it changes.
- Lightning.LightningStore.UpdateInvoices: an index more than one past the end is modelled as changing nothing. In JavaScript it would leave holes in the array. Non-integer indices are not modelled.
- Lightning.LightningStore.UpdateChannels: a missing payload is modelled as a payload with neither field. Both go through the same `?? {}` and `?? []` defaults.
- Lightning.LightningStore.AddPayment: a missing payload is not modelled. The action's type requires one.
- JsNumber.ParseInt: the model's integers are unbounded, unlike JavaScript numbers, which lose precision above 2^53. Unicode space separators other than the ones listed in `IsWhiteSpace` are not skipped. `-0` is read as 0.
- Welcome.NextScreen: stored values are modelled as either absent or of their expected type. A stored value of another type, such as the string "false", is not modelled.
- The members of `NodeState`, `PinType` and the screen enumeration come from files that are not part of this model. Only the members the code compares against matter.
- Navigation.Render: what the navigation library does with an `initialRouteName` that the stack does not register (the restore branch, see `Navigation.InitialRouteRegistered`) is library behaviour and is not modelled.
- The navigator's logging, the splash screen, JSX rendering and styles are not modelled. The same goes for `humanizeTimestamp`, QR rendering, haptics and toasts. `NavigationService.tsx` (navigation wrappers and its timer-based retry), `BottomSheet.tsx` and `Pill.tsx` are presentational or library glue.
- A node-readiness retry loop with a bounded number of attempts does not occur in the modelled code. The receive screen awaits `waitForLdk`, whose body is not part of this model.

## Findings

| source | as written | input that shows it | evidently intended | confidence | as-written member | corrected member |
|---|---|---|---|---|---|---|
| src/screens/ReceiveScreen.tsx:128 | the clipboard text is the payment-request template with an empty-string fallback after `\|\|`; the template always starts with `lightning:`, so the fallback is dead | the stored list has no invoice with the returned hash, so `FetchInvoice` clears loading and sets the invoice to undefined; pressing the QR code then copies `lightning:undefined` | copy the empty string when there is no invoice | medium, not executed | Receive.ClipboardTextAsWritten (shown by Receive.ClipboardFallbackUnreachable) | Receive.ClipboardText |
