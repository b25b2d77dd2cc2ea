/** ManageDiscount.tsx: the discount edit form. */
module DiscountEditor {
  import opened Wrappers
  import opened Numbers
  import opened Text
  import opened DiscountSlice

  /** The form's text state. `kind` is the discount's `type`. */
  datatype Form = Form(
    code: string,
    kind: string,
    value: string,
    valueType: string,
    minPurchaseAmount: string,
    maxUses: string,
    startDate: string,
    endDate: string,
    status: string,
    description: string)

  /** The initial state: a percentage discount code, minimum purchase "0",
      status "Active", everything else empty. */
  const InitialForm: Form := Form("", "discount_code", "", "percentage", "0", "", "", "", "Active", "")

  /** The text inputs that store their value as typed. */
  datatype TextField = Value | ValueType | MinPurchaseAmount | MaxUses | StartDate | EndDate | Status | Description

  function WithText(f: Form, field: TextField, text: string): (r: Form)
    ensures r.code == f.code && r.kind == f.kind
  {
    match field
    case Value => f.(value := text)
    case ValueType => f.(valueType := text)
    case MinPurchaseAmount => f.(minPurchaseAmount := text)
    case MaxUses => f.(maxUses := text)
    case StartDate => f.(startDate := text)
    case EndDate => f.(endDate := text)
    case Status => f.(status := text)
    case Description => f.(description := text)
  }

  /** JavaScript `text || fallback`. */
  function OrElse(text: string, fallback: string): string
  {
    if text != "" then text else fallback
  }

  /** The load effect. Numbers are printed with `toString()`; a missing
      minimum purchase shows "0" and missing maximum uses "". A date is
      reformatted for the date-time input only when the stored one is
      non-empty, otherwise the form keeps its previous date. The code is
      shown as stored, not upper-cased. */
  function Loaded(prev: Form, d: Discount, conv: Conversions, formatDate: string -> string): (f: Form)
    ensures f.code == d.code && f.kind == d.kind && f.status == d.status
    ensures d.startDate == "" ==> f.startDate == prev.startDate
    ensures d.endDate == "" ==> f.endDate == prev.endDate
    ensures d.minPurchaseAmount.None? ==> f.minPurchaseAmount == "0"
    ensures d.maxUses.None? ==> f.maxUses == ""
    ensures d.description.None? ==> f.description == ""
  {
    Form(
      d.code, d.kind, conv.showReal(d.value), d.valueType,
      OrElse(if d.minPurchaseAmount.Some? then conv.showReal(d.minPurchaseAmount.value) else "", "0"),
      OrElse(if d.maxUses.Some? then conv.showInt(d.maxUses.value) else "", ""),
      if d.startDate != "" then formatDate(d.startDate) else prev.startDate,
      if d.endDate != "" then formatDate(d.endDate) else prev.endDate,
      d.status,
      OrElse(d.description.GetOr(""), ""))
  }

  /** The validation: code, value and both dates are required. */
  predicate RequiredFilled(f: Form)
  {
    f.code != "" && f.value != "" && f.startDate != "" && f.endDate != ""
  }

  /** `discountData`: numbers parsed, and `maxUses` left out when its input
      is empty. */
  function Payload(f: Form, conv: Conversions): DiscountData
  {
    DiscountData(f.code, f.kind, conv.parseFloat(f.value), f.valueType,
      conv.parseFloat(f.minPurchaseAmount),
      if f.maxUses != "" then Some(conv.parseInt(f.maxUses)) else None,
      f.startDate, f.endDate, f.status, f.description)
  }

  /** `handleSubmit`: nothing without a route id, the alert when a required
      field is empty, otherwise `updateDiscount({ id, discountData })`. */
  function SaveChanges(routeId: Option<string>, f: Form, conv: Conversions): (r: Submission<(string, DiscountData)>)
    ensures r.Skipped? <==> routeId.None? || routeId.value == ""
    ensures r.Invalid? <==> !r.Skipped? && !RequiredFilled(f)
    ensures r.Sent? ==> r.payload.0 == routeId.value && r.payload.1.code == f.code
    ensures r.Sent? ==> (r.payload.1.maxUses.None? <==> f.maxUses == "")
    ensures r.Sent? && f.maxUses != "" ==> r.payload.1.maxUses == Some(conv.parseInt(f.maxUses))
    ensures r.Sent? ==> r.payload.1.value == conv.parseFloat(f.value)
    ensures r.Sent? ==> r.payload.1.minPurchaseAmount == conv.parseFloat(f.minPurchaseAmount)
    ensures r.Sent? ==> r.payload.1.kind == f.kind && r.payload.1.valueType == f.valueType
    ensures r.Sent? ==> r.payload.1.startDate == f.startDate && r.payload.1.endDate == f.endDate
    ensures r.Sent? ==> r.payload.1.status == f.status && r.payload.1.description == f.description
  {
    if routeId.None? || routeId.value == "" then Skipped
    else if !RequiredFilled(f) then Invalid
    else Sent((routeId.value, Payload(f, conv)))
  }

  /** Loading a stored discount and saving it untouched sends back its code,
      type, value, status and maximum uses (absent stays absent), and its
      minimum purchase when it had one, provided printing and parsing
      numbers round-trip; it cannot be saved when its code or a date is
      empty and the form had no date to keep. */
  lemma LoadThenSave(prev: Form, d: Discount, id: string, conv: Conversions, formatDate: string -> string)
    requires RoundTrips(conv) && id != ""
    ensures var r := SaveChanges(Some(id), Loaded(prev, d, conv, formatDate), conv);
      && (r.Invalid? <==> !RequiredFilled(Loaded(prev, d, conv, formatDate)))
      && (d.code == "" ==> r.Invalid?)
      && (r.Sent? ==>
        && r.payload.1.code == d.code && r.payload.1.kind == d.kind && r.payload.1.status == d.status
        && r.payload.1.value == Some(d.value)
        && r.payload.1.maxUses == (if d.maxUses.Some? then Some(d.maxUses) else None)
        && (d.minPurchaseAmount.Some? ==> r.payload.1.minPurchaseAmount == d.minPurchaseAmount)
        && r.payload.1.description == d.description.GetOr(""))
  {
    var f := Loaded(prev, d, conv, formatDate);
    ShownNumbersParse(conv, d.value, d.maxUses.GetOr(0));
    ShownNumbersParse(conv, d.minPurchaseAmount.GetOr(0.0), 0);
  }

  /** The page state. */
  class Editor {
    const conv: Conversions
    const formatDate: string -> string
    var form: Form

    constructor (conv: Conversions, formatDate: string -> string)
      ensures this.conv == conv && this.formatDate == formatDate && form == InitialForm
    {
      this.conv := conv;
      this.formatDate := formatDate;
      form := InitialForm;
    }

    /** The code input: `setCode(e.target.value.toUpperCase())`. A typed
        code is always upper case. */
    method SetCode(text: string)
      modifies this
      ensures form == old(form).(code := ToUpper(text))
      ensures IsUpperCase(form.code)
    {
      ToUpperIsUpper(text);
      form := form.(code := ToUpper(text));
    }

    /** The two type buttons: `setType('discount_code')` and
        `setType('coupon_codes')`. */
    method SetKind(couponCodes: bool)
      modifies this
      ensures form == old(form).(kind := if couponCodes then "coupon_codes" else "discount_code")
    {
      form := form.(kind := if couponCodes then "coupon_codes" else "discount_code");
    }

    method SetText(field: TextField, text: string)
      modifies this
      ensures form == WithText(old(form), field, text)
    {
      form := WithText(form, field, text);
    }

    /** The load effect, once the stored discount arrives. */
    method Load(d: Discount)
      modifies this
      ensures form == Loaded(old(form), d, conv, formatDate)
    {
      form := Loaded(form, d, conv, formatDate);
    }
  }
}
