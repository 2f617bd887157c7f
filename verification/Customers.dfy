/** Order statuses and the customer's details with their validation. */
module Customers {
  import opened Wrappers
  import opened Text

  datatype Status = WaitingInfo | WaitingPayment | Paid | Preparing | Shipped | Cancelled

  /** validOrderStatuses: the statuses a request may name. */
  function ParseStatus(s: string): Option<Status> {
    if s == "waiting_info" then Some(WaitingInfo)
    else if s == "waiting_payment" then Some(WaitingPayment)
    else if s == "paid" then Some(Paid)
    else if s == "preparing" then Some(Preparing)
    else if s == "shipped" then Some(Shipped)
    else if s == "cancelled" then Some(Cancelled)
    else None
  }

  datatype Details = Details(fullName: string, mobile: string, address: string, postalCode: string, note: string)

  predicate ValidDetails(d: Details) {
    && d.fullName != "" && |d.fullName| <= 150
    && ByteLength(d.mobile) == 11 && HasPrefix(d.mobile, "09")
    && d.address != "" && |d.address| <= 2000
    && (d.postalCode == "" || ByteLength(d.postalCode) == 10)
    && |d.note| <= 1000
  }

  /** The details a form submission yields; None is the 400 reply. */
  function ParseDetails(form: Details): Option<Details> {
    var d := Details(Trim(form.fullName), NormalizeMobile(form.mobile), Trim(form.address),
                     NormalizeDigits(form.postalCode), Trim(form.note));
    if ValidDetails(d) then Some(d) else None
  }

  /** The stored details are in normal form: submitting them as they are stores them again, so an
      edit that resends unchanged fields changes nothing. */
  lemma StoredDetailsReparse(form: Details)
    requires ParseDetails(form).Some?
    ensures ValidDetails(ParseDetails(form).value)
    ensures ParseDetails(ParseDetails(form).value) == ParseDetails(form)
  {
    var d := ParseDetails(form).value;
    hide IsSpace, TrimLeft, TrimRight;
    ByteLengthOfDigits(NormalizeDigits(form.mobile));
    assert AllDigits(d.mobile);
    ByteLengthOfDigits(d.mobile);
    MobileFixes(d.mobile);
    NormalizeDigitsFixes(d.postalCode);
    hide NormalizeMobile, NormalizeDigits, ByteLength, HasPrefix, Trim;
    TrimTwice(form.fullName);
    TrimTwice(form.address);
    TrimTwice(form.note);
  }

  /** A form is accepted exactly when it has a name and an address of the allowed lengths, a mobile number,
      no postal code or one of ten digits, and a note that is not too long; each field is then stored in
      its normal form. */
  lemma DetailsAcceptedIff(form: Details)
    ensures ParseDetails(form).Some? <==>
              && 1 <= |Trim(form.fullName)| <= 150 && IsMobile(NormalizeMobile(form.mobile))
              && 1 <= |Trim(form.address)| <= 2000
              && (|NormalizeDigits(form.postalCode)| == 0 || |NormalizeDigits(form.postalCode)| == 10)
              && |Trim(form.note)| <= 1000
    ensures ParseDetails(form).Some? ==>
              var d := ParseDetails(form).value;
              && d.fullName == Trim(form.fullName) && d.mobile == NormalizeMobile(form.mobile)
              && d.address == Trim(form.address) && d.postalCode == NormalizeDigits(form.postalCode)
              && d.note == Trim(form.note)
  {
    assert AllDigits(NormalizeMobile(form.mobile));
    ByteLengthOfDigits(NormalizeMobile(form.mobile));
    ByteLengthOfDigits(NormalizeDigits(form.postalCode));
    hide Trim, NormalizeMobile, NormalizeDigits, ByteLength;
  }

  /** The name of a status in requests and rows. */
  function StatusName(s: Status): string {
    match s
    case WaitingInfo => "waiting_info"
    case WaitingPayment => "waiting_payment"
    case Paid => "paid"
    case Preparing => "preparing"
    case Shipped => "shipped"
    case Cancelled => "cancelled"
  }

  /** A request names a status exactly by its name. */
  lemma StatusByName(text: string, s: Status)
    ensures ParseStatus(text) == Some(s) <==> text == StatusName(s)
  {
  }
}
