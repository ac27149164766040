/**
 * The Lightning node store: one record holding the node's state, identity,
 * invoices, channels, payments, peers and claimable balance, and the
 * reducer actions that update that record in place.
 *
 * The pure functions below give the meaning of the non-trivial updates;
 * the lemmas after them state the properties the actions promise.
 */
module Lightning {
  import opened Wrappers
  import opened Ldk
  import opened Types

  // ---------------------------------------------------------------------------
  // Invoice list

  /** The list with the first invoice carrying `hash` taken out, if there is one. */
  function RemoveFirst(invoices: seq<Invoice>, hash: string): seq<Invoice>
  {
    if |invoices| == 0 then []
    else if invoices[0].paymentHash == hash then invoices[1..]
    else [invoices[0]] + RemoveFirst(invoices[1..], hash)
  }

  /** Removal keeps every invoice but at most one, and shortens the list by at most one. */
  lemma {:induction false} RemoveFirstShrinks(invoices: seq<Invoice>, hash: string)
    ensures |invoices| - 1 <= |RemoveFirst(invoices, hash)| <= |invoices|
    ensures multiset(RemoveFirst(invoices, hash)) <= multiset(invoices)
  {
    if |invoices| > 0 {
      assert invoices == [invoices[0]] + invoices[1..];
      RemoveFirstShrinks(invoices[1..], hash);
    }
  }

  /** With no invoice carrying `hash`, removal leaves the list as it is. */
  lemma {:induction false} RemoveFirstAbsent(invoices: seq<Invoice>, hash: string)
    requires forall k :: 0 <= k < |invoices| ==> invoices[k].paymentHash != hash
    ensures RemoveFirst(invoices, hash) == invoices
  {
    if |invoices| > 0 {
      var tail := invoices[1..];
      assert forall k :: 0 <= k < |tail| ==> tail[k] == invoices[k + 1];
      RemoveFirstAbsent(tail, hash);
      assert [invoices[0]] + tail == invoices;
    }
  }

  /** Splicing out the first invoice carrying `hash`, at index `i`, is exactly `RemoveFirst`. */
  lemma {:induction false} RemoveFirstAt(invoices: seq<Invoice>, hash: string, i: nat)
    requires i < |invoices| && invoices[i].paymentHash == hash
    requires forall k :: 0 <= k < i ==> invoices[k].paymentHash != hash
    ensures RemoveFirst(invoices, hash) == invoices[..i] + invoices[i + 1..]
  {
    if i == 0 {
      assert invoices[..0] + invoices[1..] == invoices[1..];
    } else {
      var tail := invoices[1..];
      assert invoices[0].paymentHash != hash;
      assert RemoveFirst(invoices, hash) == [invoices[0]] + RemoveFirst(tail, hash);
      assert forall k :: 0 <= k < i - 1 ==> tail[k] == invoices[k + 1];
      RemoveFirstAt(tail, hash, i - 1);
      assert invoices[..i] == [invoices[0]] + tail[..i - 1];
      assert invoices[i + 1..] == tail[i..];
    }
  }

  /**
   * Removing the first invoice carrying `hash`, at index `i`, takes out exactly
   * that one invoice and shortens the list by one.
   */
  lemma RemoveFirstMultiset(invoices: seq<Invoice>, hash: string, i: nat)
    requires i < |invoices| && invoices[i].paymentHash == hash
    requires forall k :: 0 <= k < i ==> invoices[k].paymentHash != hash
    ensures multiset(RemoveFirst(invoices, hash)) + multiset{invoices[i]} == multiset(invoices)
    ensures |RemoveFirst(invoices, hash)| == |invoices| - 1
  {
    RemoveFirstAt(invoices, hash, i);
    var before, after := invoices[..i], invoices[i + 1..];
    assert invoices == before + [invoices[i]] + after;
    assert multiset(invoices) == multiset(before) + multiset{invoices[i]} + multiset(after);
  }

  /** Every payment hash occurs at most once in the list. */
  ghost predicate UniqueHashes(invoices: seq<Invoice>)
  {
    forall i, j :: 0 <= i < j < |invoices| ==> invoices[i].paymentHash != invoices[j].paymentHash
  }

  /** Appending an invoice whose hash is already present breaks hash uniqueness: `addInvoice` does not de-duplicate. */
  lemma AppendKnownHashDuplicates(invoices: seq<Invoice>, invoice: Invoice)
    requires FirstIndexOf(invoices, invoice.paymentHash) != -1
    ensures !UniqueHashes(invoices + [invoice])
  {
    var i := FirstIndexOf(invoices, invoice.paymentHash);
    assert (invoices + [invoice])[i].paymentHash == (invoices + [invoice])[|invoices|].paymentHash;
  }

  // ---------------------------------------------------------------------------
  // Open channel ids

  /** The ids of `ids`, in order, that do not occur in `existing` (the `filter` over `includes`). */
  function Unseen(ids: seq<string>, existing: seq<string>): (r: seq<string>)
    ensures |r| <= |ids|
    ensures forall k :: 0 <= k < |r| ==> r[k] !in existing
  {
    if |ids| == 0 then []
    else (if ids[0] in existing then [] else [ids[0]]) + Unseen(ids[1..], existing)
  }

  /** The appended ids are exactly the payload ids not already known. */
  lemma {:induction false} UnseenMembers(ids: seq<string>, existing: seq<string>)
    ensures forall x :: x in Unseen(ids, existing) <==> x in ids && x !in existing
  {
    if |ids| > 0 {
      UnseenMembers(ids[1..], existing);
      assert ids == [ids[0]] + ids[1..];
    }
  }

  /** Filtering distributes over concatenation: appended ids keep payload order. */
  lemma {:induction false} UnseenAppend(a: seq<string>, b: seq<string>, existing: seq<string>)
    ensures Unseen(a + b, existing) == Unseen(a, existing) + Unseen(b, existing)
  {
    if |a| > 0 {
      assert (a + b)[1..] == a[1..] + b;
      UnseenAppend(a[1..], b, existing);
    } else {
      assert a + b == b;
    }
  }

  /** No element occurs twice. */
  ghost predicate NoDuplicates(s: seq<string>)
  {
    forall i, j :: 0 <= i < j < |s| ==> s[i] != s[j]
  }

  lemma {:induction false} UnseenNoDuplicates(ids: seq<string>, existing: seq<string>)
    requires NoDuplicates(ids)
    ensures NoDuplicates(Unseen(ids, existing))
  {
    if |ids| > 0 {
      var tail := ids[1..];
      assert NoDuplicates(tail) by {
        forall i, j | 0 <= i < j < |tail| ensures tail[i] != tail[j] {
          assert tail[i] == ids[i + 1] && tail[j] == ids[j + 1];
        }
      }
      UnseenNoDuplicates(tail, existing);
      UnseenMembers(tail, existing);
      assert ids[0] !in tail by {
        forall k | 0 <= k < |tail| ensures tail[k] != ids[0] {
          assert tail[k] == ids[k + 1];
        }
      }
    }
  }

  /**
   * Merging open channel ids: the old list is kept as a prefix, and when
   * neither the old list nor the payload repeats an id, the merged list
   * repeats none either.
   */
  lemma MergeIdsNoDuplicates(oldIds: seq<string>, ids: seq<string>)
    requires NoDuplicates(oldIds) && NoDuplicates(ids)
    ensures NoDuplicates(oldIds + Unseen(ids, oldIds))
  {
    UnseenNoDuplicates(ids, oldIds);
    var u := Unseen(ids, oldIds);
    var m := oldIds + u;
    forall i, j | 0 <= i < j < |m| ensures m[i] != m[j] {
      if j < |oldIds| {
      } else if i < |oldIds| {
        assert m[j] == u[j - |oldIds|];
        assert m[i] in oldIds;
      } else {
        assert m[i] == u[i - |oldIds|] && m[j] == u[j - |oldIds|];
      }
    }
  }

  /** Filtering ids that are all known already yields nothing. */
  lemma {:induction false} UnseenOfKnown(ids: seq<string>, existing: seq<string>)
    requires forall x :: x in ids ==> x in existing
    ensures Unseen(ids, existing) == []
  {
    if |ids| > 0 {
      assert ids[0] in ids;
      assert forall x :: x in ids[1..] ==> x in ids;
      UnseenOfKnown(ids[1..], existing);
    }
  }

  /** After a merge every payload id is present, so merging the same payload again appends nothing. */
  lemma MergeIdsIdempotent(oldIds: seq<string>, ids: seq<string>)
    ensures forall x :: x in ids ==> x in oldIds + Unseen(ids, oldIds)
    ensures Unseen(ids, oldIds + Unseen(ids, oldIds)) == []
  {
    UnseenMembers(ids, oldIds);
    UnseenOfKnown(ids, oldIds + Unseen(ids, oldIds));
  }

  /** The source filters against the old list only, so an id repeated inside the payload is appended twice. */
  lemma PayloadDuplicateKept(oldIds: seq<string>, id: string)
    requires id !in oldIds
    ensures oldIds + Unseen([id, id], oldIds) == oldIds + [id, id]
    ensures !NoDuplicates(oldIds + Unseen([id, id], oldIds))
  {
    assert [id, id][1..] == [id];
    var m := oldIds + [id, id];
    assert m[|oldIds|] == m[|oldIds| + 1];
  }

  /**
   * How often the filter keeps an id: as often as the payload holds it when
   * it is not in the old list, and never otherwise.
   */
  lemma {:induction false} UnseenCount(ids: seq<string>, existing: seq<string>, x: string)
    ensures multiset(Unseen(ids, existing))[x] == if x in existing then 0 else multiset(ids)[x]
  {
    if |ids| > 0 {
      assert ids == [ids[0]] + ids[1..];
      UnseenCount(ids[1..], existing, x);
    }
  }

  // ---------------------------------------------------------------------------
  // Channel map

  /** Object spread of the old map and the payload's map (an absent payload map counts as empty). */
  function MergeChannels(channels: map<string, Channel>, update: Option<map<string, Channel>>): (r: map<string, Channel>)
    ensures update.None? ==> r == channels
    ensures update.Some? ==> r.Keys == channels.Keys + update.value.Keys
    ensures update.Some? ==> forall k :: k in update.value ==> r[k] == update.value[k]
    ensures forall k :: k in channels && (update.None? || k !in update.value) ==> k in r && r[k] == channels[k]
  {
    channels + update.GetOr(map[])
  }

  // ---------------------------------------------------------------------------
  // Payments

  /** Received exactly when the invoice's payee is this node; with no node id, always sent. */
  function Classify(invoice: Invoice, nodeId: Option<string>): (t: PaymentType)
    ensures t == Received <==> nodeId == Some(invoice.payeePubKey)
    ensures nodeId.None? ==> t == Sent
  {
    if nodeId.Some? && invoice.payeePubKey == nodeId.value then Received else Sent
  }

  /** The payment map with the entry for the invoice's hash (re)written; the direction is recomputed. */
  function RecordPayment(payments: map<string, Payment>, nodeId: Option<string>, invoice: Invoice): (r: map<string, Payment>)
    ensures r.Keys == payments.Keys + {invoice.paymentHash}
    ensures r[invoice.paymentHash].invoice == invoice
    ensures r[invoice.paymentHash].kind == Received <==> nodeId == Some(invoice.payeePubKey)
    ensures forall h :: h in payments && h != invoice.paymentHash ==> r[h] == payments[h]
  {
    payments[invoice.paymentHash := Payment(invoice, Classify(invoice, nodeId))]
  }

  /** Recording the same payment twice leaves the same map as recording it once. */
  lemma RecordPaymentIdempotent(payments: map<string, Payment>, nodeId: Option<string>, invoice: Invoice)
    ensures RecordPayment(RecordPayment(payments, nodeId, invoice), nodeId, invoice)
         == RecordPayment(payments, nodeId, invoice)
  {
  }

  // ---------------------------------------------------------------------------
  // The store

  /** The store's data fields, as one value. */
  datatype StoreState = StoreState(
    ldkState: NodeState,
    nodeStarted: bool,
    nodeId: Option<string>,
    ldkVersion: NodeVersion,
    channels: map<string, Channel>,
    invoices: seq<Invoice>,
    payments: map<string, Payment>,
    peers: seq<string>,
    openChannelIds: seq<string>,
    claimableBalance: int)

  /** The record the store starts from. */
  const Initial := StoreState(Offline, false, None, NodeVersion("", ""), map[], [], map[], [], [], 0)

  /** The payload of `updateChannels`: any part of the record, of which only two fields are read. */
  datatype ChannelUpdate = ChannelUpdate(channels: Option<map<string, Channel>>, openChannelIds: Option<seq<string>>)

  class LightningStore {
    var ldkState: NodeState
    var nodeStarted: bool
    var nodeId: Option<string>
    var ldkVersion: NodeVersion
    var channels: map<string, Channel>
    var invoices: seq<Invoice>
    var payments: map<string, Payment>
    var peers: seq<string>
    var openChannelIds: seq<string>
    var claimableBalance: int

    function Snapshot(): StoreState
      reads this
    {
      StoreState(ldkState, nodeStarted, nodeId, ldkVersion, channels, invoices, payments, peers, openChannelIds, claimableBalance)
    }

    constructor ()
      ensures Snapshot() == Initial
    {
      ldkState := Offline;
      nodeStarted := false;
      nodeId := None;
      ldkVersion := NodeVersion("", "");
      channels := map[];
      invoices := [];
      payments := map[];
      peers := [];
      openChannelIds := [];
      claimableBalance := 0;
    }

    method SetNodeId(id: string)
      modifies this
      ensures Snapshot() == old(Snapshot()).(nodeId := Some(id))
    {
      nodeId := Some(id);
    }

    method SetLdkVersion(version: NodeVersion)
      modifies this
      ensures Snapshot() == old(Snapshot()).(ldkVersion := version)
    {
      ldkVersion := version;
    }

    /** Records the node state; reaching `Complete` marks the node started, and nothing here clears that mark. */
    method SetLdkState(state: NodeState)
      modifies this
      ensures ldkState == state
      ensures nodeStarted == (old(nodeStarted) || state == Complete)
      ensures old(nodeStarted) ==> nodeStarted
      ensures Snapshot() == old(Snapshot()).(ldkState := state, nodeStarted := nodeStarted)
    {
      ldkState := state;
      if state == Complete {
        nodeStarted := true;
      }
    }

    method SetNodeStarted(started: bool)
      modifies this
      ensures Snapshot() == old(Snapshot()).(nodeStarted := started)
    {
      nodeStarted := started;
    }

    /** `push`: the invoice goes at the end, even when its hash is already in the list. */
    method AddInvoice(invoice: Invoice)
      modifies this
      ensures invoices == old(invoices) + [invoice]
      ensures Snapshot() == old(Snapshot()).(invoices := invoices)
    {
      invoices := invoices + [invoice];
    }

    /** `findIndex` then `splice(index, 1)`: removes the first invoice carrying `hash`, if any. */
    method RemoveInvoice(hash: string)
      modifies this
      ensures invoices == RemoveFirst(old(invoices), hash)
      ensures Snapshot() == old(Snapshot()).(invoices := invoices)
    {
      var index := FirstIndexOf(invoices, hash);
      if index != -1 {
        RemoveFirstAt(invoices, hash, index);
        invoices := invoices[..index] + invoices[index + 1..];
      } else {
        RemoveFirstAbsent(invoices, hash);
      }
    }

    /**
     * Indexed assignment into the array: an index inside the list replaces that
     * element only; the index just past the end appends; any other index
     * changes no element.
     */
    method UpdateInvoices(index: int, invoice: Invoice)
      modifies this
      ensures 0 <= index < |old(invoices)| ==> |invoices| == |old(invoices)| && invoices[index] == invoice
      ensures 0 <= index < |old(invoices)| ==>
        forall k :: 0 <= k < |invoices| && k != index ==> invoices[k] == old(invoices)[k]
      ensures index == |old(invoices)| ==> invoices == old(invoices) + [invoice]
      ensures (index < 0 || index > |old(invoices)|) ==> invoices == old(invoices)
      ensures Snapshot() == old(Snapshot()).(invoices := invoices)
    {
      if 0 <= index < |invoices| {
        invoices := invoices[index := invoice];
      } else if index == |invoices| {
        invoices := invoices + [invoice];
      }
    }

    /** Replaces the list wholesale with one computed by the caller. */
    method RemoveExpiredInvoices(remaining: seq<Invoice>)
      modifies this
      ensures Snapshot() == old(Snapshot()).(invoices := remaining)
    {
      invoices := remaining;
    }

    /** Merges the payload's channel map and appends the payload's not-yet-known open channel ids. */
    method UpdateChannels(update: ChannelUpdate)
      modifies this
      ensures channels == MergeChannels(old(channels), update.channels)
      ensures openChannelIds == old(openChannelIds) + Unseen(update.openChannelIds.GetOr([]), old(openChannelIds))
      ensures NoDuplicates(old(openChannelIds)) && NoDuplicates(update.openChannelIds.GetOr([]))
        ==> NoDuplicates(openChannelIds)
      ensures Snapshot() == old(Snapshot()).(channels := channels, openChannelIds := openChannelIds)
    {
      channels := MergeChannels(channels, update.channels);
      var newChannelIds := update.openChannelIds.GetOr([]);
      var uniqueIds := Unseen(newChannelIds, openChannelIds);
      if NoDuplicates(openChannelIds) && NoDuplicates(newChannelIds) {
        MergeIdsNoDuplicates(openChannelIds, newChannelIds);
      }
      openChannelIds := openChannelIds + uniqueIds;
    }

    method UpdateClaimableBalance(balance: int)
      modifies this
      ensures Snapshot() == old(Snapshot()).(claimableBalance := balance)
    {
      claimableBalance := balance;
    }

    /**
     * Stores the payment under its invoice's hash, overwriting any earlier entry;
     * the direction given in the payload is ignored and recomputed from the node id.
     */
    method AddPayment(payment: Payment)
      modifies this
      ensures payments == RecordPayment(old(payments), nodeId, payment.invoice)
      ensures Snapshot() == old(Snapshot()).(payments := payments)
    {
      payments := RecordPayment(payments, nodeId, payment.invoice);
    }

    method AddPeer(peer: string)
      modifies this
      ensures Snapshot() == old(Snapshot()).(peers := old(peers) + [peer])
    {
      peers := peers + [peer];
    }
  }

  /** Storing the same invoice list twice leaves the store as storing it once. */
  method RemoveExpiredTwice(store: LightningStore, remaining: seq<Invoice>)
    modifies store
    ensures store.Snapshot() == old(store.Snapshot()).(invoices := remaining)
  {
    store.RemoveExpiredInvoices(remaining);
    ghost var once := store.Snapshot();
    store.RemoveExpiredInvoices(remaining);
    assert store.Snapshot() == once;
  }
}
