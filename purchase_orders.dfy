/** The purchase-order routes of backend/app/routes/purchase_orders.py over the in-memory
    `purchase_orders` table: the upsert loop of `sync_purchase_orders_from_epicor`, keyed by
    `(po_number, po_line)`, and the lookup of `get_purchase_order`. The ERP fetch is a parameter. */
module PurchaseOrders {
  import opened Wrappers
  import opened Store
  import Seqs
  import Text

  /** A key of an incoming record: present with a value, or absent from the dictionary
      (reading it with `po_data[key]` raises KeyError). */
  datatype Field<T> = Missing | Present(value: T)

  /** One record the ERP fetch returned, as the sync route reads it. */
  datatype EpicorRecord = EpicorRecord(
    poNumber: string,
    poLine: int,
    vendorId: Field<Option<string>>,
    vendorName: Field<Option<string>>,
    lineDescription: Field<Option<string>>,
    lineAmount: Field<real>,
    receivedAmount: Field<real>,
    dueDate: Field<Option<string>>)

  /** The body the sync route returns. */
  datatype SyncResponse =
    | NothingFound(message: string)
    | Synced(syncedCount: nat, message: string)

  /** The table after a sync, with the next id to hand out. */
  datatype Table = Table(rows: seq<PurchaseOrderRow>, nextId: int)

  /** What the sync route answers and the table it leaves behind. */
  datatype SyncStep = SyncStep(response: Result<SyncResponse, HttpError>, table: Table)

  const NothingFoundMessage := "No purchase orders found in Epicor"
  const PoNotFound := "Purchase order not found"

  /** The row has the upsert key `(po_number, po_line)` of the record. */
  predicate HasKey(row: PurchaseOrderRow, poNumber: string, poLine: int) {
    row.poNumber == poNumber && row.poLine == poLine
  }

  /** `query(PurchaseOrder).filter(po_number == n, po_line == l).first()`, as an index. */
  function KeyIndex(rows: seq<PurchaseOrderRow>, poNumber: string, poLine: int): (r: Option<nat>)
    ensures r.None? <==> forall i :: 0 <= i < |rows| ==> !HasKey(rows[i], poNumber, poLine)
    ensures r.Some? ==> r.value < |rows| && HasKey(rows[r.value], poNumber, poLine)
  {
    Seqs.FirstIndex(rows, (row: PurchaseOrderRow) => HasKey(row, poNumber, poLine))
  }

  /** The record carries every key the insert branch reads. */
  predicate Insertable(rec: EpicorRecord) {
    rec.vendorId.Present? && rec.vendorName.Present? && rec.lineDescription.Present?
    && rec.lineAmount.Present? && rec.receivedAmount.Present? && rec.dueDate.Present?
  }

  /** A fetched due date can be stored in the `due_date` DateTime column: the fetch yields a
      date only as text, and the column binds date objects and null, never text. */
  predicate DateBindable(d: Option<string>) {
    d.None?
  }

  /** The row the insert branch creates for a record, under the given id. */
  function NewRow(id: int, rec: EpicorRecord): PurchaseOrderRow
    requires Insertable(rec)
  {
    PurchaseOrderRow(id, rec.poNumber, rec.poLine, rec.vendorId.value, rec.vendorName.value,
                     rec.lineDescription.value, rec.lineAmount.value, rec.receivedAmount.value,
                     rec.lineAmount.value - rec.receivedAmount.value, rec.dueDate.value)
  }

  /** One pass of the upsert loop; `None` when a key it reads is missing, or when the new row's
      due date is text, which the flush before the commit refuses. A record whose key exists
      updates the amounts of the first row with that key; otherwise a row is added. */
  function Upsert(t: Table, rec: EpicorRecord): (r: Option<Table>)
    ensures r.Some? ==> |t.rows| <= |r.value.rows| <= |t.rows| + 1
    ensures r.Some? ==> r.value.nextId - t.nextId == |r.value.rows| - |t.rows|
    ensures r.Some? ==> forall i :: 0 <= i < |t.rows| ==> SameIdentity(r.value.rows[i], t.rows[i])
  {
    if rec.lineAmount.Missing? || rec.receivedAmount.Missing? then None
    else
      var remaining := rec.lineAmount.value - rec.receivedAmount.value;
      match KeyIndex(t.rows, rec.poNumber, rec.poLine)
      case Some(k) =>
        Some(Table(t.rows[k := t.rows[k].(lineAmount := rec.lineAmount.value,
                                          receivedAmount := rec.receivedAmount.value,
                                          remainingAmount := remaining)], t.nextId))
      case None =>
        if !Insertable(rec) || !DateBindable(rec.dueDate.value) then None
        else Some(Table(t.rows + [NewRow(t.nextId, rec)], t.nextId + 1))
  }

  /** Two rows are the same purchase-order line: same id and same key. */
  predicate SameIdentity(a: PurchaseOrderRow, b: PurchaseOrderRow) {
    a.id == b.id && a.poNumber == b.poNumber && a.poLine == b.poLine
  }

  /** The whole loop over the fetched records, in order; `None` as soon as one pass fails. */
  function SyncAll(t: Table, recs: seq<EpicorRecord>): (r: Option<Table>)
    ensures r.Some? ==> |t.rows| <= |r.value.rows| <= |t.rows| + |recs|
    ensures r.Some? ==> r.value.nextId - t.nextId == |r.value.rows| - |t.rows|
    ensures r.Some? ==> forall i :: 0 <= i < |t.rows| ==> SameIdentity(r.value.rows[i], t.rows[i])
  {
    if |recs| == 0 then Some(t)
    else match SyncAll(t, recs[..|recs| - 1])
      case None => None
      case Some(t') => Upsert(t', recs[|recs| - 1])
  }

  /** `sync_purchase_orders_from_epicor` as a function of the table and the fetch (`None` when
      the fetch raises). Any exception ends in a 500 and, with no commit, leaves the table as it was. */
  function SyncOutcome(t: Table, fetched: Option<seq<EpicorRecord>>): (s: SyncStep)
    ensures s.response.Err? ==> s.response.error == ServerError && s.table == t
    ensures s.response == Ok(NothingFound(NothingFoundMessage)) <==> fetched == Some([])
    ensures s.response == Ok(NothingFound(NothingFoundMessage)) ==> s.table == t
    ensures s.response.Ok? && s.response.value.Synced? ==>
              fetched.Some? && s.response.value.syncedCount == |fetched.value| > 0
              && |t.rows| <= |s.table.rows| <= |t.rows| + |fetched.value|
  {
    match fetched
    case None => SyncStep(Err(ServerError), t)
    case Some(recs) =>
      if recs == [] then SyncStep(Ok(NothingFound(NothingFoundMessage)), t)
      else match SyncAll(t, recs)
        case None => SyncStep(Err(ServerError), t)
        case Some(t') =>
          SyncStep(Ok(Synced(|recs|, "Successfully synced " + Text.DecimalString(|recs|) + " purchase orders")), t')
  }

  /** The invariants of the table: ids below the counter and distinct, keys distinct. */
  predicate TableValid(t: Table) {
    PoIdsFresh(t.rows, t.nextId) && PoKeysUnique(t.rows)
  }

  // ---------------------------------------------------------------------------
  // One pass of the upsert loop
  // ---------------------------------------------------------------------------

  /** A record with an existing key changes only the amounts of that row: the remaining amount
      becomes line amount minus received amount; id, vendor, description and due date stay. */
  lemma UpsertUpdatesExisting(t: Table, rec: EpicorRecord, k: nat)
    requires rec.lineAmount.Present? && rec.receivedAmount.Present?
    requires k < |t.rows| && HasKey(t.rows[k], rec.poNumber, rec.poLine)
    requires forall j :: 0 <= j < k ==> !HasKey(t.rows[j], rec.poNumber, rec.poLine)
    ensures Upsert(t, rec).Some?
    ensures var t' := Upsert(t, rec).value;
            && t'.nextId == t.nextId && |t'.rows| == |t.rows|
            && t'.rows[k].lineAmount == rec.lineAmount.value
            && t'.rows[k].receivedAmount == rec.receivedAmount.value
            && t'.rows[k].remainingAmount == rec.lineAmount.value - rec.receivedAmount.value
            && t'.rows[k].(lineAmount := t.rows[k].lineAmount, receivedAmount := t.rows[k].receivedAmount,
                           remainingAmount := t.rows[k].remainingAmount) == t.rows[k]
            && forall j :: 0 <= j < |t.rows| && j != k ==> t'.rows[j] == t.rows[j]
  {
    assert KeyIndex(t.rows, rec.poNumber, rec.poLine) == Some(k);
  }

  /** A record with a new key adds one row at the end holding all of its fields under the next id. */
  lemma UpsertInsertsNew(t: Table, rec: EpicorRecord)
    requires Insertable(rec) && DateBindable(rec.dueDate.value)
    requires forall j :: 0 <= j < |t.rows| ==> !HasKey(t.rows[j], rec.poNumber, rec.poLine)
    ensures Upsert(t, rec).Some?
    ensures var t' := Upsert(t, rec).value;
            && t'.nextId == t.nextId + 1 && |t'.rows| == |t.rows| + 1 && t'.rows[..|t.rows|] == t.rows
            && var row := t'.rows[|t.rows|];
            && row.id == t.nextId && row.poNumber == rec.poNumber && row.poLine == rec.poLine
            && row.vendorId == rec.vendorId.value && row.vendorName == rec.vendorName.value
            && row.lineDescription == rec.lineDescription.value && row.dueDate == rec.dueDate.value
            && row.lineAmount == rec.lineAmount.value && row.receivedAmount == rec.receivedAmount.value
            && row.remainingAmount == rec.lineAmount.value - rec.receivedAmount.value
  {
    var t' := Upsert(t, rec).value;
    assert t'.rows == t.rows + [NewRow(t.nextId, rec)];
  }

  /** A pass fails exactly when an amount is missing, or when the key is new and a field of the
      new row is missing or its due date is text. */
  lemma UpsertFailureCases(t: Table, rec: EpicorRecord)
    ensures Upsert(t, rec).None? <==>
              rec.lineAmount.Missing? || rec.receivedAmount.Missing?
              || (KeyIndex(t.rows, rec.poNumber, rec.poLine).None?
                  && (!Insertable(rec) || !DateBindable(rec.dueDate.value)))
  {
  }

  /** A new purchase-order line with every key present but a text due date fails the whole
      sync: the route answers 500 and the table is left as it was. */
  lemma TextDueDateFailsSync(t: Table, rec: EpicorRecord, date: string)
    requires forall j :: 0 <= j < |t.rows| ==> !HasKey(t.rows[j], rec.poNumber, rec.poLine)
    requires Insertable(rec) && rec.dueDate == Present(Some(date))
    ensures SyncOutcome(t, Some([rec])) == SyncStep(Err(ServerError), t)
  {
    assert [rec][..0] == [];
    assert Upsert(t, rec).None?;
  }

  /** After a successful pass the table holds a row with the record's key and amounts, and
      every row with another key is unchanged; rows are never removed and keep their ids. */
  lemma UpsertEffect(t: Table, rec: EpicorRecord)
    requires Upsert(t, rec).Some?
    ensures var t' := Upsert(t, rec).value;
            && |t'.rows| >= |t.rows|
            && (forall j :: 0 <= j < |t.rows| && !HasKey(t.rows[j], rec.poNumber, rec.poLine) ==> t'.rows[j] == t.rows[j])
            && (forall j :: 0 <= j < |t.rows| ==> AmountsOnly(t.rows[j], t'.rows[j]))
            && exists k :: 0 <= k < |t'.rows| && HasKey(t'.rows[k], rec.poNumber, rec.poLine)
                           && HoldsAmounts(t'.rows[k], rec)
  {
    var t' := Upsert(t, rec).value;
    match KeyIndex(t.rows, rec.poNumber, rec.poLine)
    case Some(k) =>
      assert HasKey(t'.rows[k], rec.poNumber, rec.poLine) && HoldsAmounts(t'.rows[k], rec);
    case None =>
      assert HasKey(t'.rows[|t.rows|], rec.poNumber, rec.poLine) && HoldsAmounts(t'.rows[|t.rows|], rec);
  }

  /** The row carries the record's amounts and the remaining amount computed from them. */
  predicate HoldsAmounts(row: PurchaseOrderRow, rec: EpicorRecord) {
    rec.lineAmount.Present? && rec.receivedAmount.Present?
    && row.lineAmount == rec.lineAmount.value && row.receivedAmount == rec.receivedAmount.value
    && row.remainingAmount == rec.lineAmount.value - rec.receivedAmount.value
  }

  /** `after` differs from `before` in the three amount columns at most. */
  predicate AmountsOnly(before: PurchaseOrderRow, after: PurchaseOrderRow) {
    after.(lineAmount := before.lineAmount, receivedAmount := before.receivedAmount,
           remainingAmount := before.remainingAmount) == before
  }

  /** A pass keeps ids fresh and distinct and keys distinct. */
  lemma UpsertKeepsValid(t: Table, rec: EpicorRecord)
    requires TableValid(t) && Upsert(t, rec).Some?
    ensures TableValid(Upsert(t, rec).value)
  {
    var t' := Upsert(t, rec).value;
    match KeyIndex(t.rows, rec.poNumber, rec.poLine)
    case Some(k) =>
      assert forall j :: 0 <= j < |t.rows| ==>
        t'.rows[j].id == t.rows[j].id && t'.rows[j].poNumber == t.rows[j].poNumber
        && t'.rows[j].poLine == t.rows[j].poLine;
    case None =>
      assert t'.rows == t.rows + [NewRow(t.nextId, rec)];
  }

  // ---------------------------------------------------------------------------
  // The whole loop
  // ---------------------------------------------------------------------------

  /** The sync keeps the table's invariants. */
  lemma {:induction false} SyncAllKeepsValid(t: Table, recs: seq<EpicorRecord>)
    requires TableValid(t) && SyncAll(t, recs).Some?
    ensures TableValid(SyncAll(t, recs).value)
  {
    if |recs| > 0 {
      SyncAllKeepsValid(t, recs[..|recs| - 1]);
      UpsertKeepsValid(SyncAll(t, recs[..|recs| - 1]).value, recs[|recs| - 1]);
    }
  }

  /** `recs[i]` is the last incoming record with its key. */
  predicate LastWithKey(recs: seq<EpicorRecord>, i: int)
    requires 0 <= i < |recs|
  {
    forall j :: i < j < |recs| ==> recs[j].poNumber != recs[i].poNumber || recs[j].poLine != recs[i].poLine
  }

  /** After a successful sync, every incoming key has a row, and that row holds the amounts of
      the last incoming record with that key: later records overwrite earlier ones. */
  lemma {:induction false} SyncAllLastRecordWins(t: Table, recs: seq<EpicorRecord>)
    requires SyncAll(t, recs).Some?
    ensures var t' := SyncAll(t, recs).value;
            forall i :: 0 <= i < |recs| && LastWithKey(recs, i) ==>
              exists k :: 0 <= k < |t'.rows| && HasKey(t'.rows[k], recs[i].poNumber, recs[i].poLine)
                          && HoldsAmounts(t'.rows[k], recs[i])
  {
    if |recs| > 0 {
      var front, last := recs[..|recs| - 1], recs[|recs| - 1];
      var mid := SyncAll(t, front).value;
      var t' := SyncAll(t, recs).value;
      SyncAllLastRecordWins(t, front);
      UpsertEffect(mid, last);
      forall i | 0 <= i < |recs| && LastWithKey(recs, i)
        ensures exists k :: 0 <= k < |t'.rows| && HasKey(t'.rows[k], recs[i].poNumber, recs[i].poLine)
                            && HoldsAmounts(t'.rows[k], recs[i])
      {
        if i < |recs| - 1 {
          assert front[i] == recs[i];
          assert LastWithKey(front, i);
          var k :| 0 <= k < |mid.rows| && HasKey(mid.rows[k], recs[i].poNumber, recs[i].poLine)
                   && HoldsAmounts(mid.rows[k], recs[i]);
          assert !HasKey(mid.rows[k], last.poNumber, last.poLine);
          assert t'.rows[k] == mid.rows[k];
        }
      }
    }
  }

  /** A sync never removes a row and changes only the amounts of existing rows; a row whose key
      no incoming record carries is left exactly as it was. */
  lemma {:induction false} SyncAllKeepsOtherRows(t: Table, recs: seq<EpicorRecord>)
    requires SyncAll(t, recs).Some?
    ensures var t' := SyncAll(t, recs).value;
            && |t'.rows| >= |t.rows|
            && (forall j :: 0 <= j < |t.rows| ==> AmountsOnly(t.rows[j], t'.rows[j]))
            && forall j :: 0 <= j < |t.rows| && (forall i :: 0 <= i < |recs| ==> !HasKey(t.rows[j], recs[i].poNumber, recs[i].poLine))
                 ==> t'.rows[j] == t.rows[j]
  {
    if |recs| > 0 {
      var front, last := recs[..|recs| - 1], recs[|recs| - 1];
      var mid := SyncAll(t, front).value;
      var t' := SyncAll(t, recs).value;
      SyncAllKeepsOtherRows(t, front);
      UpsertEffect(mid, last);
      forall j | 0 <= j < |t.rows|
        ensures AmountsOnly(t.rows[j], t'.rows[j])
      {
        assert AmountsOnly(t.rows[j], mid.rows[j]) && AmountsOnly(mid.rows[j], t'.rows[j]);
      }
      forall j | 0 <= j < |t.rows| && (forall i :: 0 <= i < |recs| ==> !HasKey(t.rows[j], recs[i].poNumber, recs[i].poLine))
        ensures t'.rows[j] == t.rows[j]
      {
        assert forall i :: 0 <= i < |front| ==> front[i] == recs[i];
        assert mid.rows[j] == t.rows[j];
        assert !HasKey(t.rows[j], last.poNumber, last.poLine);
      }
    }
  }

  /** A failed prefix fails the whole loop. */
  lemma {:induction false} SyncAllFailedPrefix(t: Table, recs: seq<EpicorRecord>, n: nat)
    requires n <= |recs| && SyncAll(t, recs[..n]).None?
    ensures SyncAll(t, recs).None?
  {
    if n < |recs| {
      var front := recs[..|recs| - 1];
      assert front[..n] == recs[..n];
      SyncAllFailedPrefix(t, front, n);
    } else {
      assert recs[..n] == recs;
    }
  }

  // ---------------------------------------------------------------------------
  // The routes
  // ---------------------------------------------------------------------------

  /** One pass of the sync loop on the table's rows and id counter: update the amounts of the
      first row with the record's key, or insert a new row; `None` where the pass raises. */
  method UpsertRecord(rows: seq<PurchaseOrderRow>, nextId: int, poData: EpicorRecord) returns (r: Option<Table>)
    ensures r == Upsert(Table(rows, nextId), poData)
  {
    var existing := KeyIndex(rows, poData.poNumber, poData.poLine);
    if poData.lineAmount.Missing? || poData.receivedAmount.Missing? {
      return None;
    }
    var remainingAmount := poData.lineAmount.value - poData.receivedAmount.value;
    if existing.Some? {
      var k := existing.value;
      r := Some(Table(rows[k := rows[k].(lineAmount := poData.lineAmount.value,
                                         receivedAmount := poData.receivedAmount.value,
                                         remainingAmount := remainingAmount)], nextId));
    } else {
      if !Insertable(poData) {
        return None;
      }
      var newPo := PurchaseOrderRow(nextId, poData.poNumber, poData.poLine, poData.vendorId.value,
                                    poData.vendorName.value, poData.lineDescription.value,
                                    poData.lineAmount.value, poData.receivedAmount.value,
                                    remainingAmount, poData.dueDate.value);
      if !DateBindable(newPo.dueDate) {
        // the added row is flushed before the commit, and the DateTime column refuses text
        return None;
      }
      r := Some(Table(rows + [newPo], nextId + 1));
    }
  }

  /** The loop of `sync_purchase_orders_from_epicor` on the rows and the id counter: one pass
      per record, in order, counting the records; `None` as soon as a pass raises. */
  method UpsertAll(rows: seq<PurchaseOrderRow>, nextId: int, epicorPos: seq<EpicorRecord>)
    returns (r: Option<Table>, syncedCount: nat)
    ensures r == SyncAll(Table(rows, nextId), epicorPos)
    ensures r.Some? ==> syncedCount == |epicorPos|
  {
    ghost var start := Table(rows, nextId);
    var current := Table(rows, nextId);
    syncedCount := 0;
    while syncedCount < |epicorPos|
      invariant 0 <= syncedCount <= |epicorPos|
      invariant SyncAll(start, epicorPos[..syncedCount]) == Some(current)
    {
      var poData := epicorPos[syncedCount];
      assert epicorPos[..syncedCount + 1][..syncedCount] == epicorPos[..syncedCount];
      var next := UpsertRecord(current.rows, current.nextId, poData);
      if next.None? {
        SyncAllFailedPrefix(start, epicorPos, syncedCount + 1);
        return None, syncedCount;
      }
      current := next.value;
      syncedCount := syncedCount + 1;
    }
    assert epicorPos[..syncedCount] == epicorPos;
    r := Some(current);
  }

  /** `sync_purchase_orders_from_epicor`: the loop works on the session and the result is
      committed only when every record went through. */
  method SyncPurchaseOrdersFromEpicor(db: Database, fetched: Option<seq<EpicorRecord>>)
    returns (r: Result<SyncResponse, HttpError>)
    requires db.Valid()
    modifies db
    ensures db.Valid()
    ensures db.invoices == old(db.invoices) && db.matches == old(db.matches)
    ensures db.nextMatchId == old(db.nextMatchId)
    ensures var s := SyncOutcome(Table(old(db.purchaseOrders), old(db.nextPoId)), fetched);
            r == s.response && db.purchaseOrders == s.table.rows && db.nextPoId == s.table.nextId
    ensures r.Ok? && r.value.Synced? ==> r.value.syncedCount == |fetched.value|
  {
    if fetched.None? {
      return Err(ServerError);
    }
    var epicorPos := fetched.value;
    if |epicorPos| == 0 {
      return Ok(NothingFound(NothingFoundMessage));
    }
    ghost var start := Table(db.purchaseOrders, db.nextPoId);
    var synced, syncedCount := UpsertAll(db.purchaseOrders, db.nextPoId, epicorPos);
    if synced.None? {
      return Err(ServerError);
    }
    SyncAllKeepsValid(start, epicorPos);
    db.purchaseOrders, db.nextPoId := synced.value.rows, synced.value.nextId;
    r := Ok(Synced(syncedCount, "Successfully synced " + Text.DecimalString(syncedCount) + " purchase orders"));
  }

  /** An invoice linked to a purchase order, as `get_purchase_order` lists it. */
  datatype LinkedInvoice = LinkedInvoice(invoiceId: int, invoiceNumber: Option<string>, amount: Option<real>)

  /** The body `get_purchase_order` returns: the row and its linked invoices. */
  datatype PurchaseOrderDetail = PurchaseOrderDetail(po: PurchaseOrderRow, invoices: seq<LinkedInvoice>)

  /** The entry `get_purchase_order` lists for one invoice. */
  function Linked(inv: InvoiceRow): LinkedInvoice {
    LinkedInvoice(inv.id, inv.invoiceNumber, inv.invoiceAmount)
  }

  /** The invoices whose `purchase_order_id` is the given id, in table order. */
  function LinkedInvoices(invoices: seq<InvoiceRow>, poId: int): (r: seq<LinkedInvoice>)
    ensures |r| <= |invoices|
    ensures r == [] <==> forall i :: 0 <= i < |invoices| ==> invoices[i].purchaseOrderId != Some(poId)
    ensures forall k :: 0 <= k < |r| ==> exists i :: 0 <= i < |invoices| && invoices[i].purchaseOrderId == Some(poId)
                                                 && r[k] == Linked(invoices[i])
  {
    if |invoices| == 0 then []
    else
      var last := invoices[|invoices| - 1];
      LinkedInvoices(invoices[..|invoices| - 1], poId)
      + (if last.purchaseOrderId == Some(poId)
         then [Linked(last)] else [])
  }

  /** Every invoice pointing to the purchase order is listed, with its number and amount. */
  lemma {:induction false} LinkedInvoicesListsEvery(invoices: seq<InvoiceRow>, poId: int, i: int)
    requires 0 <= i < |invoices| && invoices[i].purchaseOrderId == Some(poId)
    ensures Linked(invoices[i]) in LinkedInvoices(invoices, poId)
  {
    var n := |invoices| - 1;
    var front := LinkedInvoices(invoices[..n], poId);
    var tail := if invoices[n].purchaseOrderId == Some(poId) then [Linked(invoices[n])] else [];
    assert LinkedInvoices(invoices, poId) == front + tail;
    if i < n {
      assert invoices[..n][i] == invoices[i];
      LinkedInvoicesListsEvery(invoices[..n], poId, i);
    } else {
      assert tail == [Linked(invoices[i])];
    }
  }

  /** `get_purchase_order`: the first row with the id, or a 404 the route re-raises as is. */
  method GetPurchaseOrder(db: Database, poId: int) returns (r: Result<PurchaseOrderDetail, HttpError>)
    ensures r.Err? <==> forall i :: 0 <= i < |db.purchaseOrders| ==> db.purchaseOrders[i].id != poId
    ensures r.Err? ==> r.error == NotFound(PoNotFound)
    ensures r.Ok? ==> r.value.po in db.purchaseOrders && r.value.po.id == poId
                      && r.value.invoices == LinkedInvoices(db.invoices, poId)
  {
    var po := FindPurchaseOrder(db.purchaseOrders, poId);
    if po.None? {
      return Err(NotFound(PoNotFound));
    }
    r := Ok(PurchaseOrderDetail(po.value, LinkedInvoices(db.invoices, poId)));
  }
}
