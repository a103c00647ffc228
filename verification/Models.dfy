/** Payments, the messages about them, and the payments table (internal/models). */
module Models {
  import opened Errors

  type OrderId = string

  /** `Unset` is the empty string a provider adapter leaves behind for an event it does not map. */
  datatype Status = Pending | Completed | Failed | Cancelled | Refunded | Unknown | Unset

  /** The fields of a payment that the asynchronous pipeline copies from the message and never rewrites. */
  datatype Details = Details(
    amount: real,
    currency: string,
    provider: string,
    customerId: string,
    customerEmail: string,
    paymentDate: int,
    metadata: map<string, string>)

  datatype PaymentMessage = PaymentMessage(orderId: OrderId, details: Details, status: Status)

  datatype StatusMessage = StatusMessage(orderId: OrderId, oldStatus: Status, newStatus: Status)

  /** The two notifications the handlers publish. */
  datatype Notification =
    | PaymentReceived(recipient: string, orderId: OrderId, amount: real, currency: string)
    | StatusUpdated(recipient: string, orderId: OrderId, status: Status)

  /** A primary key. Keys are opaque to the program, and none is made twice: one made with uuid.New() belongs to the
      payment it was made for, one the database makes for a row it inserts belongs to that row. So a key determines
      its payment, and here it is what it determines. */
  datatype Key = Key(orderId: OrderId, details: Details, maker: Maker)

  datatype Maker = Uuid(text: string) | Sequence

  /** One row of the payments table, and the fields of a *models.Payment. */
  datatype Row = Row(
    id: Key,
    orderId: OrderId,
    details: Details,
    status: Status,
    transactionId: string,
    errorMessage: string,
    paymentDetails: map<string, string>,
    updatedAt: int)
  {
    /** The key is this payment's. */
    predicate Identified() {
      id.orderId == orderId && id.details == details
    }
  }

  // ---------------------------------------------------------------------------------------
  // The payments table, in insertion order
  // ---------------------------------------------------------------------------------------

  type Table = seq<Row>

  /** `Where("order_id = ?", o).First(&row)` */
  function Find(t: Table, o: OrderId): Option<Row> {
    if |t| == 0 then None
    else if t[0].orderId == o then Some(t[0])
    else Find(t[1..], o)
  }

  /** `Where("order_id = ? AND status != ?", o, pending).First(&row)` finds something */
  predicate HasProcessed(t: Table, o: OrderId) {
    exists i: nat :: i < |t| && t[i].orderId == o && t[i].status != Pending
  }

  predicate Has(t: Table, o: OrderId) {
    Find(t, o).Some?
  }

  /** An insert, refused by the unique index on order_id when the order is already there. */
  function Insert(t: Table, row: Row): Option<Table> {
    if Has(t, row.orderId) then None else Some(t + [row])
  }

  /** `Model(&row).Update("status", st)` for the row of order o. */
  function SetStatus(t: Table, o: OrderId, st: Status): Table {
    if |t| == 0 then []
    else if t[0].orderId == o then [t[0].(status := st)] + t[1..]
    else [t[0]] + SetStatus(t[1..], o, st)
  }

  function IndexOfId(t: Table, id: Key): (i: nat)
    ensures i <= |t|
    ensures i < |t| ==> t[i].id == id
    ensures forall j: nat | j < i :: t[j].id != id
  {
    if |t| == 0 then 0 else if t[0].id == id then 0 else 1 + IndexOfId(t[1..], id)
  }

  /** `Where("transaction_id = ?", tid).First(&payment)` */
  function IndexOfTransaction(t: Table, tid: string): (i: nat)
    ensures i <= |t|
    ensures i < |t| ==> t[i].transactionId == tid
    ensures forall j: nat | j < i :: t[j].transactionId != tid
  {
    if |t| == 0 then 0 else if t[0].transactionId == tid then 0 else 1 + IndexOfTransaction(t[1..], tid)
  }

  function Lookup(t: Table, id: Key): Option<Row> {
    if IndexOfId(t, id) < |t| then Some(t[IndexOfId(t, id)]) else None
  }

  /** A row other than the one at i has the order. */
  predicate OrderTaken(t: Table, i: nat, o: OrderId) {
    exists j: nat :: j < |t| && j != i && t[j].orderId == o
  }

  /** `db.Save`: all columns of the row with the object's primary key, or an insert if there is none; either is
      refused by the unique index if another row has the order. */
  function Upsert(t: Table, row: Row): Option<Table> {
    var i := IndexOfId(t, row.id);
    if OrderTaken(t, i, row.orderId) then None
    else if i < |t| then Some(t[i := row])
    else Some(t + [row])
  }

  ghost predicate UniqueOrders(t: Table) {
    forall i: nat, j: nat | i < j < |t| :: t[i].orderId != t[j].orderId
  }

  function CountRows(t: Table, o: OrderId): nat {
    if |t| == 0 then 0 else (if t[0].orderId == o then 1 else 0) + CountRows(t[1..], o)
  }

  lemma {:induction false} FindSome(t: Table, o: OrderId)
    ensures Has(t, o) <==> exists i: nat :: i < |t| && t[i].orderId == o
    ensures Has(t, o) ==> Find(t, o).value in t && Find(t, o).value.orderId == o
  {
    if |t| > 0 {
      FindSome(t[1..], o);
      if t[0].orderId != o && (exists i: nat :: i < |t| && t[i].orderId == o) {
        var i: nat :| i < |t| && t[i].orderId == o;
        assert t[1..][i - 1].orderId == o;
      }
    }
  }

  lemma {:induction false} FindAfterInsert(t: Table, row: Row, o: OrderId)
    requires !Has(t, row.orderId)
    ensures Find(t + [row], o) == if o == row.orderId then Some(row) else Find(t, o)
  {
    if |t| > 0 {
      assert (t + [row])[1..] == t[1..] + [row];
      FindAfterInsert(t[1..], row, o);
    }
  }

  lemma {:induction false} FindAfterSetStatus(t: Table, o: OrderId, st: Status, p: OrderId)
    ensures Find(SetStatus(t, o, st), p) ==
            if p == o && Has(t, o) then Some(Find(t, o).value.(status := st)) else Find(t, p)
  {
    if |t| > 0 && t[0].orderId != o {
      assert ([t[0]] + SetStatus(t[1..], o, st))[1..] == SetStatus(t[1..], o, st);
      FindAfterSetStatus(t[1..], o, st, p);
    } else if |t| > 0 {
      assert ([t[0].(status := st)] + t[1..])[1..] == t[1..];
    }
  }

  lemma {:induction false} SetStatusKeepsOrders(t: Table, o: OrderId, st: Status)
    ensures |SetStatus(t, o, st)| == |t|
    ensures forall i: nat | i < |t| :: SetStatus(t, o, st)[i].orderId == t[i].orderId
  {
    if |t| > 0 && t[0].orderId != o {
      SetStatusKeepsOrders(t[1..], o, st);
    }
  }

  lemma {:induction false} SetStatusRows(t: Table, o: OrderId, st: Status)
    ensures |SetStatus(t, o, st)| == |t|
    ensures forall i: nat | i < |t| ::
              SetStatus(t, o, st)[i] == t[i] || (t[i].orderId == o && SetStatus(t, o, st)[i] == t[i].(status := st))
  {
    if |t| > 0 && t[0].orderId != o {
      SetStatusRows(t[1..], o, st);
    }
  }

  /** The insert and the status update keep orders unique: the first because of the index, the second
      because it never touches an order id. */
  lemma WritesKeepUnique(t: Table, row: Row, o: OrderId, st: Status)
    requires UniqueOrders(t)
    ensures Insert(t, row).Some? ==> UniqueOrders(Insert(t, row).value)
    ensures UniqueOrders(SetStatus(t, o, st))
  {
    FindSome(t, row.orderId);
    SetStatusKeepsOrders(t, o, st);
  }

  /** In a table with unique orders the processed check looks at the one row there is. */
  lemma {:induction false} ProcessedIsTheRow(t: Table, o: OrderId)
    requires UniqueOrders(t)
    ensures HasProcessed(t, o) <==> Has(t, o) && Find(t, o).value.status != Pending
  {
    FindSome(t, o);
    if Has(t, o) {
      var row := Find(t, o).value;
      var i: nat :| i < |t| && t[i] == row;
      forall j: nat | j < |t| && t[j].orderId == o ensures j == i {
        assert j < i || i < j || j == i;
      }
    }
  }

  lemma {:induction false} UniqueMeansOneRow(t: Table, o: OrderId)
    requires UniqueOrders(t)
    ensures CountRows(t, o) == if Has(t, o) then 1 else 0
  {
    if |t| > 0 {
      forall i: nat, j: nat | i < j < |t[1..]| ensures t[1..][i].orderId != t[1..][j].orderId {
        assert t[i + 1].orderId != t[j + 1].orderId;
      }
      UniqueMeansOneRow(t[1..], o);
      FindSome(t[1..], o);
    }
  }

  // ---------------------------------------------------------------------------------------
  // Saving
  // ---------------------------------------------------------------------------------------

  lemma LookupIsIndex(t: Table, id: Key, i: nat)
    requires i < |t| && t[i].id == id && forall j: nat | j < i :: t[j].id != id
    ensures IndexOfId(t, id) == i
  {
    var k := IndexOfId(t, id);
  }

  lemma LookupMissing(t: Table, id: Key)
    ensures Lookup(t, id).None? <==> forall j: nat | j < |t| :: t[j].id != id
  {
  }

  /** A save that takes effect stores exactly the fields given, and touches no other record. */
  lemma SavedRow(t: Table, row: Row, id: Key)
    requires Upsert(t, row).Some?
    ensures Lookup(Upsert(t, row).value, id) == if id == row.id then Some(row) else Lookup(t, id)
  {
    var i := IndexOfId(t, row.id);
    var saved := Upsert(t, row).value;
    if id == row.id {
      LookupIsIndex(saved, id, i);
    } else if IndexOfId(t, id) < |t| {
      LookupIsIndex(saved, id, IndexOfId(t, id));
    } else {
      LookupMissing(saved, id);
    }
  }

  lemma UpsertKeepsUnique(t: Table, row: Row)
    requires UniqueOrders(t) && Upsert(t, row).Some?
    ensures UniqueOrders(Upsert(t, row).value)
  {
  }

  lemma FindIs(t: Table, i: nat)
    requires UniqueOrders(t) && i < |t|
    ensures Find(t, t[i].orderId) == Some(t[i])
  {
    FindSome(t, t[i].orderId);
    var j: nat :| j < |t| && t[j] == Find(t, t[i].orderId).value;
    assert i < j || j < i || i == j;
  }

  ghost predicate AllIdentified(t: Table) {
    forall i: nat | i < |t| :: t[i].Identified()
  }

  /** Where keys belong to their payments, a save changes what is found for its own order only: it stores the object,
      over a row with the same immutable fields or where there was none; and it is refused exactly when the order is
      there under another key. */
  lemma FindAfterUpsert(t: Table, row: Row, o: OrderId)
    requires UniqueOrders(t) && AllIdentified(t) && row.Identified()
    ensures Upsert(t, row).None? <==> Has(t, row.orderId) && Find(t, row.orderId).value.id != row.id
    ensures Upsert(t, row).Some? ==>
              && UniqueOrders(Upsert(t, row).value) && AllIdentified(Upsert(t, row).value)
              && Find(Upsert(t, row).value, o) == (if o == row.orderId then Some(row) else Find(t, o))
              && (Has(t, row.orderId) ==> Find(t, row.orderId).value.details == row.details)
  {
    var i := IndexOfId(t, row.id);
    FindSome(t, row.orderId);
    if i < |t| {
      FindIs(t, i);
      assert !OrderTaken(t, i, row.orderId);
    } else if Has(t, row.orderId) {
      var j: nat :| j < |t| && t[j].orderId == row.orderId;
      FindIs(t, j);
    }
    if Upsert(t, row).Some? {
      var saved := Upsert(t, row).value;
      UpsertKeepsUnique(t, row);
      FindIs(saved, i);
      if o != row.orderId {
        SaveLeavesOthers(t, row, o);
      }
    }
  }

  lemma SaveLeavesOthers(t: Table, row: Row, o: OrderId)
    requires UniqueOrders(t) && AllIdentified(t) && row.Identified() && Upsert(t, row).Some? && o != row.orderId
    ensures Find(Upsert(t, row).value, o) == Find(t, o)
  {
    var saved := Upsert(t, row).value;
    UpsertKeepsUnique(t, row);
    FindSome(t, o);
    FindSome(saved, o);
    if Has(t, o) {
      var j: nat :| j < |t| && t[j].orderId == o;
      assert saved[j] == t[j];
      FindIs(t, j);
      FindIs(saved, j);
    } else {
      assert forall j: nat | j < |saved| :: saved[j] == row || (j < |t| && saved[j] == t[j]);
    }
  }
}
