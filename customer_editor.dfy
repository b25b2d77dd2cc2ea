/** The customer pages, NewCustomer.tsx and ManageCustomer.tsx: the same six
    inputs, created or updated. */
module CustomerEditor {
  import opened Wrappers
  import opened CustomerSlice

  datatype Form = Form(
    customerName: string,
    userName: string,
    email: string,
    phone: string,
    address: string,
    status: string)

  /** Both pages start empty with status "Active". */
  const InitialForm: Form := Form("", "", "", "", "", "Active")

  datatype Field = CustomerName | UserName | Email | Phone | Address | Status

  function WithText(f: Form, field: Field, text: string): Form
  {
    match field
    case CustomerName => f.(customerName := text)
    case UserName => f.(userName := text)
    case Email => f.(email := text)
    case Phone => f.(phone := text)
    case Address => f.(address := text)
    case Status => f.(status := text)
  }

  /** The validation both pages share: name, user name and email. */
  predicate RequiredFilled(f: Form)
  {
    f.customerName != "" && f.userName != "" && f.email != ""
  }

  /** NewCustomer's `handleSubmit(e, isDraft)`: the alert when validation
      fails, otherwise `createCustomer`; the draft button sends status
      "Inactive" whatever the status select shows. */
  function SubmitNew(f: Form, isDraft: bool): (r: Submission<CustomerData>)
    ensures !r.Skipped?
    ensures r.Invalid? <==> !RequiredFilled(f)
    ensures r.Sent? ==> r.payload.status == if isDraft then "Inactive" else f.status
    ensures r.Sent? ==> r.payload.customerName == f.customerName && r.payload.userName == f.userName
    ensures r.Sent? ==> r.payload.email == f.email && r.payload.phone == f.phone && r.payload.address == f.address
  {
    if !RequiredFilled(f) then Invalid
    else Sent(CustomerData(f.customerName, f.userName, f.email, f.phone, f.address,
      if isDraft then "Inactive" else f.status))
  }

  /** ManageCustomer's `handleSubmit`: nothing without a route id, the alert
      when validation fails, otherwise `updateCustomer({ id, customerData })`. */
  function SaveChanges(routeId: Option<string>, f: Form): (r: Submission<(string, CustomerData)>)
    ensures r.Skipped? <==> routeId.None? || routeId.value == ""
    ensures r.Invalid? <==> !r.Skipped? && !RequiredFilled(f)
    ensures r.Sent? ==> r.payload.0 == routeId.value
    ensures r.Sent? ==> r.payload.1.customerName == f.customerName && r.payload.1.userName == f.userName
    ensures r.Sent? ==> r.payload.1.email == f.email && r.payload.1.phone == f.phone
    ensures r.Sent? ==> r.payload.1.address == f.address && r.payload.1.status == f.status
  {
    if routeId.None? || routeId.value == "" then Skipped
    else if !RequiredFilled(f) then Invalid
    else Sent((routeId.value, CustomerData(f.customerName, f.userName, f.email, f.phone, f.address, f.status)))
  }

  /** ManageCustomer's load effect: missing phone and address show as "". */
  function Loaded(c: Customer): Form
  {
    Form(c.customerName, c.userName, c.email, c.phone.GetOr(""), c.address.GetOr(""), c.status)
  }

  /** Loading a stored customer and saving it untouched sends back exactly
      its fields, a missing phone or address as ""; a customer missing a
      required field cannot be saved untouched. */
  lemma LoadThenSave(c: Customer, id: string)
    requires id != ""
    ensures c.customerName != "" && c.userName != "" && c.email != "" ==>
      SaveChanges(Some(id), Loaded(c)) == Sent((id, CustomerData(c.customerName, c.userName, c.email,
        c.phone.GetOr(""), c.address.GetOr(""), c.status)))
    ensures !(c.customerName != "" && c.userName != "" && c.email != "") ==>
      SaveChanges(Some(id), Loaded(c)) == Invalid
  {
  }

  /** A created customer, stored with the id the server gave it and loaded
      into the edit page, saves back the same body it was created with. */
  lemma CreateLoadSave(f: Form, isDraft: bool, id: string)
    requires id != "" && SubmitNew(f, isDraft).Sent?
    ensures var sent := SubmitNew(f, isDraft).payload;
      var stored := Customer(Some(id), sent.customerName, sent.userName, sent.email,
        Some(sent.phone), Some(sent.address), sent.status);
      SaveChanges(Some(id), Loaded(stored)) == Sent((id, sent))
  {
  }

  /** The page state of either customer page. */
  class Editor {
    var form: Form

    constructor ()
      ensures form == InitialForm
    {
      form := InitialForm;
    }

    method SetText(field: Field, text: string)
      modifies this
      ensures form == WithText(old(form), field, text)
    {
      form := WithText(form, field, text);
    }

    /** ManageCustomer's load effect, once the stored customer arrives. */
    method Load(c: Customer)
      modifies this
      ensures form == Loaded(c)
    {
      form := Loaded(c);
    }
  }
}
