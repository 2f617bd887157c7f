/** What happens when a seller or a customer sends the same request again: edits and payment steps
    are idempotent, submissions are accepted once. */
module Retries {
  import opened Customers
  import opened Orders

  /** The same edit again is accepted and changes nothing: no second history entry, no second event. */
  lemma EditTwice(db: Db, admin: AdminId, id: OrderId, p: Patch)
    requires Update(db, admin, true, id, p).Done?
    ensures var once := Update(db, admin, true, id, p).value;
            Update(once, admin, true, id, p) == Done(once)
  {
    hide ValidDetails, Record;
    var once := Update(db, admin, true, id, p).value;
    var o, row := db.orders[id], once.orders[id];
    assert MergeDetails(row.customer, p) == MergeDetails(o.customer, p) == row.customer || !PatchesCustomer(p);
    assert MergeRemarks(row.remarks, p) == row.remarks;
    assert once.orders[id := row] == once.orders;
  }

  /** Fields an edit does not name stay, whatever else it does. */
  lemma EditKeepsTheRest(db: Db, admin: AdminId, id: OrderId, p: Patch)
    requires Update(db, admin, true, id, p).Done?
    ensures var o, row := db.orders[id], Update(db, admin, true, id, p).value.orders[id];
            && (p.status.None? ==> row.status == o.status)
            && (!PatchesCustomer(p) ==> row.customer == o.customer)
            && (p.fullName.None? ==> row.customer.fullName == o.customer.fullName)
            && (p.mobile.None? ==> row.customer.mobile == o.customer.mobile)
            && (p.address.None? ==> row.customer.address == o.customer.address)
            && (p.postalCode.None? ==> row.customer.postalCode == o.customer.postalCode)
            && (p.customerNote.None? ==> row.customer.note == o.customer.note)
            && (p.deliveryDate.None? ==> row.remarks.deliveryDate == o.remarks.deliveryDate)
            && (p.channel.None? ==> row.remarks.channel == o.remarks.channel)
            && (p.reference.None? ==> row.remarks.reference == o.remarks.reference)
            && (p.internalNote.None? ==> row.remarks.note == o.remarks.note)
            && (p.tracking.None? ==> row.remarks.tracking == o.remarks.tracking)
  {
    hide ValidDetails, Record;
  }

  /** Asking for the final payment again, at any time and whatever the shop's card is by then, keeps
      the snapshot of the first request. */
  lemma RequestFinalTwice(db: Db, id: OrderId, first: Payment, before: Time, second: Payment, now: Time)
    requires RequestFinal(db, true, id, first, before).Done?
    ensures var once := RequestFinal(db, true, id, first, before).value;
            RequestFinal(once, true, id, second, now) == Done(once)
  {
  }

  /** Confirming again, even by another seller, keeps the first confirmation. */
  lemma ConfirmFinalTwice(db: Db, first: AdminId, before: Time, second: AdminId, now: Time, id: OrderId)
    requires ConfirmFinal(db, first, true, id, before).Done?
    ensures var once := ConfirmFinal(db, first, true, id, before).value;
            ConfirmFinal(once, second, true, id, now) == Done(once)
  {
  }
}
