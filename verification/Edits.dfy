/** The seller's edit of an order, said from the request: when it is accepted, with which refusal
    otherwise, and what every column holds afterwards. */
module Edits {
  import opened Wrappers
  import opened Text
  import opened Customers
  import opened Orders

  // ---------------------------------------------------------------- what an edit asks for

  predicate NamesCustomer(p: Patch) {
    !(p.fullName.None? && p.mobile.None? && p.address.None? && p.postalCode.None? && p.customerNote.None?)
  }

  predicate TextOk(s: string, least: nat, most: nat) { least <= |Trim(s)| <= most }

  predicate PostalOk(s: string) { |NormalizeDigits(s)| == 0 || |NormalizeDigits(s)| == 10 }

  /** Some field the edit names has a value the customer could not have given either. */
  predicate NamesInvalid(p: Patch) {
    || (p.fullName.Some? && !TextOk(p.fullName.value, 1, 150))
    || (p.mobile.Some? && !IsMobile(NormalizeMobile(p.mobile.value)))
    || (p.address.Some? && !TextOk(p.address.value, 1, 2000))
    || (p.postalCode.Some? && !PostalOk(p.postalCode.value))
    || (p.customerNote.Some? && !TextOk(p.customerNote.value, 0, 1000))
  }

  /** The edit asks for a status other than the order's whose evidence contradicts it: information
      still awaited though it was submitted, or a payment awaiting approval without a receipt. */
  predicate StatusRefused(o: Order, p: Patch) {
    p.status.Some? && p.status.value != o.status
    && ((p.status.value == WaitingInfo && o.submittedAt.Some?) || (p.status.value == WaitingPayment && o.receipt.None?))
  }

  // ---------------------------------------------------------------- what an accepted edit leaves

  predicate CustomerEdited(was: Details, p: Patch, now: Details) {
    && now.fullName == (if p.fullName.Some? then Trim(p.fullName.value) else was.fullName)
    && now.mobile == (if p.mobile.Some? then NormalizeMobile(p.mobile.value) else was.mobile)
    && now.address == (if p.address.Some? then Trim(p.address.value) else was.address)
    && now.postalCode == (if p.postalCode.Some? then NormalizeDigits(p.postalCode.value) else was.postalCode)
    && now.note == (if p.customerNote.Some? then Trim(p.customerNote.value) else was.note)
  }

  predicate RemarksEdited(was: Remarks, p: Patch, now: Remarks) {
    && now.deliveryDate == (if p.deliveryDate.Some? then p.deliveryDate.value else was.deliveryDate)
    && now.channel == (if p.channel.Some? then p.channel.value else was.channel)
    && now.reference == (if p.reference.Some? then p.reference.value else was.reference)
    && now.note == (if p.internalNote.Some? then p.internalNote.value else was.note)
    && now.tracking == (if p.tracking.Some? then p.tracking.value else was.tracking)
  }

  /** The order's other columns and all other orders are as they were; the history has one more entry,
      with the seller's name, exactly when the status moved; and the events record that move and a
      first tracking code. */
  ghost predicate Edited(db: Db, after: Db, admin: AdminId, id: OrderId, p: Patch) {
    && id in db.orders && id in after.orders
    && var o, row := db.orders[id], after.orders[id];
       && after.orders == db.orders[id := row]
       && row == o.(customer := row.customer, remarks := row.remarks, status := row.status)
       && CustomerEdited(o.customer, p, row.customer)
       && RemarksEdited(o.remarks, p, row.remarks)
       && row.status == (if p.status.Some? then p.status.value else o.status)
       && var moved := if row.status == o.status then [] else [Entry(id, Some(o.status), row.status, Some(admin))];
          var noted := if row.status == o.status then [] else [Event(OrderStatusChanged, Some(id), None)];
          var tracked := if o.remarks.tracking == "" && row.remarks.tracking != ""
                         then [Event(TrackingAdded, Some(id), None)] else [];
          after.history == db.history + moved && after.events == db.events + noted + tracked
  }

  // ---------------------------------------------------------------- proofs

  lemma MobileField(s: string)
    ensures ByteLength(NormalizeMobile(s)) == 11 && HasPrefix(NormalizeMobile(s), "09") <==>
            IsMobile(NormalizeMobile(s))
  {
    assert AllDigits(NormalizeMobile(s));
    ByteLengthOfDigits(NormalizeMobile(s));
  }

  lemma PostalField(s: string)
    ensures NormalizeDigits(s) == "" || ByteLength(NormalizeDigits(s)) == 10 <==> PostalOk(s)
  {
    ByteLengthOfDigits(NormalizeDigits(s));
  }

  /** An edit of valid details is valid exactly when no field it names is invalid. */
  lemma MergeValidIff(d: Details, p: Patch)
    requires ValidDetails(d)
    ensures ValidDetails(MergeDetails(d, p)) <==> !NamesInvalid(p)
  {
    if p.mobile.Some? { MobileField(p.mobile.value); }
    if p.postalCode.Some? { PostalField(p.postalCode.value); }
    hide Trim, NormalizeDigits, NormalizeMobile, IsMobile, ByteLength, HasPrefix;
  }

  /** The rows of every reachable state. */
  predicate SubmittedValid(db: Db) {
    forall id :: id in db.orders && db.orders[id].submittedAt.Some? ==> ValidDetails(db.orders[id].customer)
  }

  /** What an accepted edit leaves, whatever was stored before. */
  lemma EditLeaves(db: Db, admin: AdminId, allowed: bool, id: OrderId, p: Patch)
    requires Update(db, admin, allowed, id, p).Done?
    ensures Edited(db, Update(db, admin, allowed, id, p).value, admin, id, p)
  {
    hide Trim, NormalizeDigits, NormalizeMobile, ValidDetails;
  }

  /** Each refusal has its conditions, in the handler's order: no such order for this seller, customer
      fields before the customer sent any, an invalid customer field, a status without its evidence. */
  lemma EditIsDecided(db: Db, admin: AdminId, allowed: bool, id: OrderId, p: Patch)
    requires SubmittedValid(db)
    ensures var outcome := Update(db, admin, allowed, id, p);
            if id !in db.orders || !allowed then outcome == Rejected(NotFound)
            else
              var o := db.orders[id];
              if NamesCustomer(p) && o.submittedAt.None? then outcome == Rejected(Conflict)
              else if NamesInvalid(p) then outcome == Rejected(BadRequest)
              else if StatusRefused(o, p) then outcome == Rejected(Conflict)
              else outcome.Done? && Edited(db, outcome.value, admin, id, p)
  {
    if id in db.orders {
      var o := db.orders[id];
      if o.submittedAt.Some? { MergeValidIff(o.customer, p); }
      hide Trim, NormalizeDigits, NormalizeMobile, IsMobile, ValidDetails, SubmittedValid;
      assert NamesInvalid(p) ==> NamesCustomer(p);
    }
  }
}
