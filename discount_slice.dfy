/** discountSlice.ts: the discount entity and its store slice. */
module DiscountSlice {
  import opened Wrappers
  import EntitySlice

  /** A discount as the store caches it. */
  datatype Discount = Discount(
    id: Option<string>,
    code: string,
    kind: string,
    value: real,
    valueType: string,
    minPurchaseAmount: Option<real>,
    maxUses: Option<int>,
    usageCount: Option<int>,
    startDate: string,
    endDate: string,
    status: string,
    description: Option<string>)

  /** The body ManageDiscount.tsx sends to `updateDiscount`. `maxUses` is
      absent (`None`) or the result of `parseInt` (itself possibly NaN). */
  datatype DiscountData = DiscountData(
    code: string,
    kind: string,
    value: Option<real>,
    valueType: string,
    minPurchaseAmount: Option<real>,
    maxUses: Option<Option<int>>,
    startDate: string,
    endDate: string,
    status: string,
    description: string)

  function DiscountId(d: Discount): Option<string> { d.id }

  /** The slice's `initialState`. */
  method NewDiscountSlice() returns (s: EntitySlice.Slice<Discount>)
    ensures fresh(s)
    ensures forall d :: s.idOf(d) == d.id
    ensures s.items == [] && s.current == None && !s.loading && s.error == None && !s.success
  {
    s := new EntitySlice.Slice(DiscountId);
  }
}
