/** customerSlice.ts: the customer entity and its store slice. */
module CustomerSlice {
  import opened Wrappers
  import EntitySlice

  /** A customer as the store caches it. */
  datatype Customer = Customer(
    id: Option<string>,
    customerName: string,
    userName: string,
    email: string,
    phone: Option<string>,
    address: Option<string>,
    status: string)

  /** The body the customer pages send to `createCustomer` / `updateCustomer`. */
  datatype CustomerData = CustomerData(
    customerName: string,
    userName: string,
    email: string,
    phone: string,
    address: string,
    status: string)

  function CustomerId(c: Customer): Option<string> { c.id }

  /** The slice's `initialState`. */
  method NewCustomerSlice() returns (s: EntitySlice.Slice<Customer>)
    ensures fresh(s)
    ensures forall c :: s.idOf(c) == c.id
    ensures s.items == [] && s.current == None && !s.loading && s.error == None && !s.success
  {
    s := new EntitySlice.Slice(CustomerId);
  }
}
