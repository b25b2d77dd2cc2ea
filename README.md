# Admin dashboard core, modelled in Dafny

This project models the deterministic logic of a React/Redux admin
dashboard for a shop:

- the product editor pages (ManageProduct, NewProduct): a price with profit
  and a final price computed from a base price, a profit percentage and a
  list of non-compounded taxes; tax add and remove; image removal; loading a
  stored product; validation and the update or create body;
- the order editor pages (ManageOrder, NewOrder): the order total
  `Σ price·quantity`, line add, remove and edit (selecting a product copies
  its name and final price), address edits, validation and the body sent,
  including the draft status override;
- the product list (ManageProducts): the case-insensitive search and status
  filter, and the delete confirmation dialog;
- the five Redux store slices: the four entity slices (products, orders,
  customers, discounts), whose reducers are the same code with the entity
  renamed, are modelled once as `EntitySlice.Slice<E>`; the auth slice with
  its login, OTP, register, resend and logout transitions;
- the OTP page: six one-digit cells, paste of a six-digit code, the resend
  countdown, and the submit and button conditions;
- the discount, customer and profile forms: defaults, loading a stored
  entity into the form, required-field validation, draft overrides, the
  password check, and empty optional fields sent as absent.

JavaScript numbers are exact `real`s (or `int`s for `parseInt`); NaN is
`None` of `Option<real>`, and `+`, `*` and `/ 100` propagate it
(`Numbers.Add`, `Numbers.Mul`, `Numbers.Percent`). `parseFloat`, `parseInt`
and `toString` are parameters of the model (`Numbers.Conversions`); where a
property needs them to agree, it assumes `Numbers.RoundTrips`: printing a
number and parsing it back gives the number, and `""` parses to NaN.

Page state that React keeps in `useState` hooks is a class whose fields the
handlers update. An effect that recomputes derived state from its
dependencies (the product prices, the order total) is folded into every
handler that changes those dependencies. The class states this as an
invariant (`ProductEditor.Editor.Priced`, `OrderEditor.Editor.Totaled`). A
submit handler is a function returning a `Submission`: `Skipped` when the
route has no id, `Invalid` when the alert fires, or `Sent(body)` for the
body that is dispatched.

The discount field `type` is called `kind` in the model, since `type` is a
Dafny keyword.

Where the system's documentation and its code differ, the model follows the
code. The documentation describes negative amounts as clamped to 0. The
code replaces only an unparsable base price by 0
(`parseFloat(basePrice) || 0`), keeps negative values, and an unparsable
profit percentage makes both prices NaN (`Pricing.PriceWithProfitSpec`).

## Model

| member | source | states |
|---|---|---|
| Pricing.PriceWithProfitSpec | src/pages/catalog/ManageProduct.tsx:80-83 | the price with profit is defined iff the profit parses; then it is base + base·profit/100, and an unparsable base counts as 0 |
| Pricing.ZeroProfitIdentity | src/pages/catalog/ManageProduct.tsx:80-83 | with profit 0 the price with profit is the base value |
| Pricing.TaxAmountCons | src/pages/catalog/ManageProduct.tsx:85-87 | the left fold over the taxes equals the first tax's term plus the fold over the rest |
| Pricing.TaxAmountSpec | src/pages/catalog/ManageProduct.tsx:85-87 | the tax amount is NaN iff the price with profit or some rate is; otherwise it is price·(Σ rates)/100, with every tax taken of the same price (no compounding) |
| Pricing.FinalPriceSpec | src/pages/catalog/ManageProduct.tsx:85-89 | final price = w + w·(Σ rates)/100 for price with profit w, defined iff w and every rate are |
| Pricing.NoTaxIdentity | src/pages/catalog/ManageProduct.tsx:85-89 | with no taxes the final price equals the price with profit |
| Pricing.FinalPricePermutation | src/pages/catalog/ManageProduct.tsx:85-87 | any reordering of the tax list leaves the final price unchanged |
| Pricing.RateTotalNonNegative | src/pages/catalog/ManageProduct.tsx:85-87 | non-negative rates have a non-negative sum |
| Pricing.PriceOrdering | src/pages/catalog/ManageProduct.tsx:80-89 | with non-negative base, profit and rates: base ≤ price with profit ≤ final price |
| Pricing.ProfitMonotone | src/pages/catalog/ManageProduct.tsx:80-89 | a larger profit percentage never lowers either price (non-negative base and rates) |
| Pricing.WorkedExample | src/pages/catalog/NewProduct.tsx:60-71 | base 100, profit 20 %, taxes 18 % and 2 % give 120 and 144 |
| Pricing.FinalPriceAddTax | src/pages/catalog/ManageProduct.tsx:92-104 | appending a tax adds exactly that tax's term to the final price |
| Pricing.FinalPriceRemoveTax | src/pages/catalog/ManageProduct.tsx:106-108 | removing the tax at an index takes exactly its term off the final price |
| ProductEditor.WithText | src/pages/catalog/NewProduct.tsx:152-332 | a plain text input never touches the base price, profit, taxes or image |
| ProductEditor.SaveChanges | src/pages/catalog/ManageProduct.tsx:123-149 | skipped iff there is no route id; the alert iff a required field is empty; otherwise the update carries the id, the form's own status, its taxes, base price and profit percentage as `parseFloat` of their inputs, stock as `parseInt`, and every other field as typed |
| ProductEditor.SubmitNew | src/pages/catalog/NewProduct.tsx:106-130 | never skipped; the alert iff a required field is empty; otherwise the body's status is the pressed button's, whatever the selector shows, base price and profit percentage are `parseFloat` of their inputs, stock `parseInt`, and the taxes and every other field are as the form holds them |
| ProductEditor.LoadThenSave | src/pages/catalog/ManageProduct.tsx:58-77 | loading a stored product and saving it untouched sends back exactly its stored fields (numbers round-trip); one missing a required text field cannot be saved |
| ProductEditor.Editor.constructor | src/pages/catalog/ManageProduct.tsx:22-39 | all fields empty except the given profit and status, no taxes, no preview, prices computed from the form |
| ProductEditor.Editor.Reprice | src/pages/catalog/ManageProduct.tsx:79-90 | the pricing effect: afterwards the shown prices are those of the current form, nothing else changes |
| ProductEditor.Editor.SetText | src/pages/catalog/ManageProduct.tsx:233-431 | one text input (name, SKU, status, stock, description, brand, category, dimensions, weight) changes; the prices stay and stay correct |
| ProductEditor.Editor.SetTaxInputs | src/pages/catalog/ManageProduct.tsx:27-28 | only the two new-tax inputs change |
| ProductEditor.Editor.SetBasePrice | src/pages/catalog/ManageProduct.tsx:286 | the base text changes and the pricing effect recomputes both prices |
| ProductEditor.Editor.SetProfitPercentage | src/pages/catalog/ManageProduct.tsx:300 | the profit text changes and the pricing effect recomputes both prices |
| ProductEditor.Editor.AddTax | src/pages/catalog/ManageProduct.tsx:92-104 | with both inputs non-empty, exactly one tax is appended, both inputs are cleared and the final price grows by that tax's term; otherwise nothing changes |
| ProductEditor.Editor.RemoveTax | src/pages/catalog/ManageProduct.tsx:106-108 | exactly the indexed tax goes, the rest keep their order, and its term leaves the final price; an index out of range changes nothing |
| ProductEditor.Editor.UploadImage | src/pages/catalog/ManageProduct.tsx:110-121 | preview and image become the uploaded data URL |
| ProductEditor.Editor.RemoveImage | src/pages/catalog/NewProduct.tsx:101-104 | no preview, an empty image, and the form no longer validates |
| ProductEditor.Editor.Load | src/pages/catalog/ManageProduct.tsx:58-77 | the form shows the stored product and the prices are recomputed from its base, profit and taxes, not copied |
| ProductEditor.NewProductPage | src/pages/catalog/NewProduct.tsx:23-40 | profit "20", status "Saved", no taxes; both prices 0 |
| ProductEditor.ManageProductPage | src/pages/catalog/ManageProduct.tsx:22-39 | every field empty; both prices NaN until the product arrives |
| OrderEditor.TotalSpec | src/pages/orders/ManageOrder.tsx:80-84 | the total is NaN iff some quantity or price is; otherwise it is Σ price·quantity |
| OrderEditor.TotalNonNegative | src/pages/orders/ManageOrder.tsx:80-84 | non-negative prices and quantities give a non-negative total |
| OrderEditor.AddBlankKeepsTotal | src/pages/orders/ManageOrder.tsx:86-88 | appending the blank line leaves the total unchanged |
| OrderEditor.SpliceOne | src/pages/orders/ManageOrder.tsx:90-96 | exactly one element at the splice position goes and the rest keep their order; a position past the end removes nothing |
| OrderEditor.RemoveLineTotal | src/pages/orders/ManageOrder.tsx:90-96 | removing a line takes exactly its own term off the total |
| OrderEditor.EditLineTotal | src/pages/orders/ManageOrder.tsx:98-119 | editing one line moves the total by the difference of its old and new terms |
| OrderEditor.FindProduct | src/pages/orders/ManageOrder.tsx:102 | `products.find` by `_id`: none iff no product has that id, else one that does |
| OrderEditor.ApplyEdit | src/pages/orders/ManageOrder.tsx:98-119 | selecting a known product sets product, name and price (its final price) and keeps the quantity; an unknown one changes nothing; other edits set their own field only |
| OrderEditor.SelectedLineTotal | src/pages/orders/ManageOrder.tsx:101-110 | after selecting a product the line's term is that product's final price times the quantity |
| OrderEditor.WithAddressField | src/pages/orders/ManageOrder.tsx:121-126 | exactly one address field changes |
| OrderEditor.Editor.constructor | src/pages/orders/NewOrder.tsx:34-47 | the given lines, payment method and status; no customer, empty address, unpaid; the total is that of the lines |
| OrderEditor.Editor.SetCustomer | src/pages/orders/ManageOrder.tsx:191 | only the customer changes |
| OrderEditor.Editor.SetPaymentMethod | src/pages/orders/ManageOrder.tsx:329 | only the payment method changes |
| OrderEditor.Editor.SetPaymentReceived | src/pages/orders/ManageOrder.tsx:343 | paid iff the select's value is "true"; nothing else changes |
| OrderEditor.Editor.SetStatus | src/pages/orders/ManageOrder.tsx:358 | only the status changes |
| OrderEditor.Editor.AddItem | src/pages/orders/ManageOrder.tsx:86-88 | a blank line is appended, earlier lines and the total are unchanged, and the form cannot be submitted until it gets a product |
| OrderEditor.Editor.RemoveItem | src/pages/orders/ManageOrder.tsx:90-96 | with more than one line the spliced line goes and its term leaves the total; the list never becomes empty |
| OrderEditor.Editor.EditItem | src/pages/orders/ManageOrder.tsx:98-119 | only the indexed line changes, by ApplyEdit, and the total moves by the difference of its terms |
| OrderEditor.Editor.EditShipping | src/pages/orders/ManageOrder.tsx:121-126 | only the address changes, in one field |
| OrderEditor.Editor.Load | src/pages/orders/ManageOrder.tsx:68-84 | the stored order fills the form and the total is recomputed from its lines |
| OrderEditor.Editor.SaveChanges | src/pages/orders/ManageOrder.tsx:128-152 | skipped iff no route id; the alert iff customer, a line's product or an address field is empty; otherwise the body carries the id, the form's status, the lines, the customer, the shipping address, the payment method and the received flag unchanged, and a total equal to the lines' total |
| OrderEditor.Editor.SubmitNew | src/pages/orders/NewOrder.tsx:110-132 | never skipped; the alert on failed validation; a draft sends "Saved", otherwise the selected status; the lines, customer, shipping address, payment method and received flag are sent unchanged, and the total sent is that of the lines sent |
| OrderEditor.NewOrderPage | src/pages/orders/NewOrder.tsx:34-47 | one blank line, "Credit Card", "Pending", total 0, and neither submit button sends anything |
| OrderEditor.ManageOrderPage | src/pages/orders/ManageOrder.tsx:36-47 | no lines, total 0, empty payment method and status |
| ProductList.FilterProducts | src/pages/catalog/ManageProducts.tsx:57-62 | keeps a product iff its lower-cased name or SKU contains the lower-cased query and the status filter is empty or equal; each matching product appears as often as in the store and each other not at all, in store order |
| ProductList.EmptyFilterListsAll | src/pages/catalog/ManageProducts.tsx:57-62 | an empty query and empty filter keep every product |
| ProductList.SearchIgnoresQueryCase | src/pages/catalog/ManageProducts.tsx:58-59 | upper-casing the query does not change the result |
| ProductList.FilterStable | src/pages/catalog/ManageProducts.tsx:57-62 | filtering the filtered table again changes nothing |
| ProductList.DeletedNotListed | src/redux/slices/productSlice.ts:275-281 | once the delete reducer removed an id, no row of the table carries it |
| ProductList.DeleteDialog.constructor | src/pages/catalog/ManageProducts.tsx:21-22 | nothing picked, the dialog hidden |
| ProductList.DeleteDialog.DeleteClick | src/pages/catalog/ManageProducts.tsx:43-47 | records the id and opens the dialog |
| ProductList.DeleteDialog.ConfirmDelete | src/pages/catalog/ManageProducts.tsx:49-55 | with a non-empty id picked, returns it for deletion, clears it and closes the dialog; otherwise nothing happens |
| ProductList.DeleteDialog.Cancel | src/pages/catalog/ManageProducts.tsx:183 | hides the dialog and keeps the picked id |
| ProductList.ClickThenConfirm | src/pages/catalog/ManageProducts.tsx:43-55 | a click then a confirmation deletes exactly the clicked id, and only a non-empty one |
| EntitySlice.ReplaceById | src/redux/slices/productSlice.ts:261-263 | the length is kept; elements whose id equals the payload's become the payload, the others are unchanged |
| EntitySlice.RemoveById | src/redux/slices/productSlice.ts:278-280 | every element with that id goes; every other stays, as many times as it occurred, in order |
| EntitySlice.ReplaceAbsentId | src/redux/slices/productSlice.ts:261-263 | an update whose id no element carries changes nothing |
| EntitySlice.ReplaceIdempotent | src/redux/slices/productSlice.ts:261-263 | replacing twice is replacing once |
| EntitySlice.RemoveAbsentId | src/redux/slices/productSlice.ts:278-280 | deleting an absent id changes nothing |
| EntitySlice.CreateThenDelete | src/redux/slices/productSlice.ts:214-218 | creating an entity with a fresh id and deleting that id restores the list |
| EntitySlice.Slice.constructor | src/redux/slices/productSlice.ts:36-42 | empty list, no current entity, not loading, no error, no success |
| EntitySlice.Slice.ClearError | src/redux/slices/productSlice.ts:197-199 | only the error is cleared |
| EntitySlice.Slice.ResetSuccess | src/redux/slices/productSlice.ts:200-202 | only success is reset |
| EntitySlice.Slice.ClearDetails | src/redux/slices/productSlice.ts:203-205 | only the current entity is cleared |
| EntitySlice.Slice.Pending | src/redux/slices/productSlice.ts:210-213 | loading, no error; list, current entity and success unchanged |
| EntitySlice.Slice.Rejected | src/redux/slices/productSlice.ts:219-222 | not loading, the error is the payload; everything else unchanged |
| EntitySlice.Slice.CreateFulfilled | src/redux/slices/productSlice.ts:214-218 | the payload is appended at the end, success, not loading |
| EntitySlice.Slice.ListFulfilled | src/redux/slices/productSlice.ts:229-232 | the list is replaced wholesale, not loading |
| EntitySlice.Slice.GetByIdFulfilled | src/redux/slices/productSlice.ts:243-246 | only the current entity and loading change |
| EntitySlice.Slice.UpdateFulfilled | src/redux/slices/productSlice.ts:257-264 | the current entity is the payload and the list is ReplaceById of it; success, not loading |
| EntitySlice.Slice.DeleteFulfilled | src/redux/slices/productSlice.ts:275-281 | the list is RemoveById of the id; success, not loading |
| ProductSlice.NewProductSlice | src/redux/slices/productSlice.ts:36-42 | the product slice's initial state, keyed by `_id` |
| OrderSlice.NewOrderSlice | src/redux/slices/orderSlice.ts:38-44 | the order slice's initial state, keyed by `_id` |
| CustomerSlice.NewCustomerSlice | src/redux/slices/customerSlice.ts:22-28 | the customer slice's initial state, keyed by `_id` |
| DiscountSlice.NewDiscountSlice | src/redux/slices/discountSlice.ts:27-33 | the discount slice's initial state, keyed by `_id` |
| AuthSlice.Auth.constructor | src/redux/slices/authSlice.ts:37-45 | the stored user, no OTP sent, not loading, no error, no success |
| AuthSlice.Auth.ClearError | src/redux/slices/authSlice.ts:142-144 | only the error is cleared |
| AuthSlice.Auth.ResetSuccess | src/redux/slices/authSlice.ts:145-147 | only success is reset |
| AuthSlice.Auth.Pending | src/redux/slices/authSlice.ts:152-155 | loading, no error; user, OTP flag and success unchanged |
| AuthSlice.Auth.Rejected | src/redux/slices/authSlice.ts:163-166 | not loading, the error is the payload; everything else unchanged |
| AuthSlice.Auth.LoginFulfilled | src/redux/slices/authSlice.ts:156-162 | the OTP flag is the response's; the user is set only when no OTP was sent |
| AuthSlice.Auth.VerifyOtpFulfilled | src/redux/slices/authSlice.ts:173-178 | the user is set, no OTP pending, success |
| AuthSlice.Auth.RegisterFulfilled | src/redux/slices/authSlice.ts:189-193 | the OTP flag is the response's, success, the user unchanged |
| AuthSlice.Auth.ResendOtpFulfilled | src/redux/slices/authSlice.ts:204-208 | OTP sent, success, the user unchanged |
| AuthSlice.Auth.LogoutFulfilled | src/redux/slices/authSlice.ts:215-218 | no user, no OTP pending; loading, error and success untouched |
| AuthSlice.LoginFlow | src/redux/slices/authSlice.ts:156-178 | a login needing an OTP leaves the user as it was, and verifying the OTP then sets it |
| OtpVerification.Tick | src/pages/auth/OTPVerification.tsx:38-46 | a running countdown steps down by one, or at ≤ 1 becomes 0 and stops; it never rises; a stopped one stays |
| OtpVerification.CountdownReachesZero | src/pages/auth/OTPVerification.tsx:38-46 | a running countdown reaches 0 and stops after as many ticks as it has seconds, and stays there |
| OtpVerification.StoppedStaysPut | src/pages/auth/OTPVerification.tsx:41 | once the interval is cleared the timer never moves |
| OtpVerification.TicksNeverRise | src/pages/auth/OTPVerification.tsx:39-45 | any number of ticks never raises the timer |
| OtpVerification.ResendAsWrittenFreezesTimer | src/pages/auth/OTPVerification.tsx:38-49 | as written, after the first countdown and a resend the timer stays at 60 for any number of ticks |
| OtpVerification.ResendRestartsCountdown | src/pages/auth/OTPVerification.tsx:96-101 | with the countdown restarted, 60 ticks bring the timer back to 0 |
| OtpVerification.JoinLength | src/pages/auth/OTPVerification.tsx:106 | with cells of at most one character, the joined code is no longer than the cells, and as long iff no cell is empty |
| OtpVerification.JoinOfSingles | src/pages/auth/OTPVerification.tsx:106 | with one character per cell, `join('')` is those characters in cell order |
| OtpVerification.SubmitCheckMatchesButton | src/pages/auth/OTPVerification.tsx:106-109 | the submit check `length === 6` holds exactly when the button is enabled (not loading) |
| OtpVerification.OtpForm.constructor | src/pages/auth/OTPVerification.tsx:11-13 | six empty cells, a running 60-second countdown, the email passed in |
| OtpVerification.OtpForm.Change | src/pages/auth/OTPVerification.tsx:58-71 | given the at most one character `maxLength={1}` lets through, an empty or digit value replaces only the indexed cell, keeping six cells that are each empty or one digit; anything else is ignored |
| OtpVerification.OtpForm.Paste | src/pages/auth/OTPVerification.tsx:80-94 | exactly six digits become the six cells in order (joining gives the paste back); anything else is ignored |
| OtpVerification.OtpForm.TickOnce | src/pages/auth/OTPVerification.tsx:38-46 | the countdown takes one tick, the cells and email stay |
| OtpVerification.OtpForm.ResendOtp | src/pages/auth/OTPVerification.tsx:96-101 | only at 0 seconds with an email: returns the email and restarts the countdown at 60; otherwise nothing |
| OtpVerification.OtpForm.Submit | src/pages/auth/OTPVerification.tsx:103-112 | sends iff all six cells are filled (exactly when the verify button is enabled) and the email is non-empty; the code sent is the six cells' digits in order, so it is six digits |
| DiscountEditor.WithText | src/pages/discounts/ManageDiscount.tsx:180-266 | a text input never touches the code or the type |
| DiscountEditor.Loaded | src/pages/discounts/ManageDiscount.tsx:45-68 | code, type and status as stored (the code not upper-cased); a missing minimum purchase shows "0", missing maximum uses and description ""; an empty stored date keeps the form's |
| DiscountEditor.SaveChanges | src/pages/discounts/ManageDiscount.tsx:70-95 | skipped iff no route id; the alert iff code, value or a date is empty; otherwise value and minimum purchase as parsed numbers, maximum uses absent iff its input is empty and the parsed integer otherwise, and every other field as typed |
| DiscountEditor.LoadThenSave | src/pages/discounts/ManageDiscount.tsx:45-95 | loading and saving untouched sends back code, type, value, status, description and maximum uses (absent stays absent), and a present minimum purchase |
| DiscountEditor.Editor.constructor | src/pages/discounts/ManageDiscount.tsx:17-26 | "discount_code", "percentage", minimum "0", "Active", everything else empty |
| DiscountEditor.Editor.SetCode | src/pages/discounts/ManageDiscount.tsx:166 | the code is stored upper-cased, so it is always upper case |
| DiscountEditor.Editor.SetKind | src/pages/discounts/ManageDiscount.tsx:135-147 | the type becomes "coupon_codes" or "discount_code" |
| DiscountEditor.Editor.SetText | src/pages/discounts/ManageDiscount.tsx:180-266 | one text field changes |
| DiscountEditor.Editor.Load | src/pages/discounts/ManageDiscount.tsx:45-68 | the form becomes Loaded of the stored discount |
| CustomerEditor.SubmitNew | src/pages/customers/NewCustomer.tsx:36-55 | never skipped; the alert iff name, user name or email is empty; a draft sends "Inactive", otherwise the selected status; phone and address pass through, possibly empty |
| CustomerEditor.SaveChanges | src/pages/customers/ManageCustomer.tsx:52-73 | skipped iff no route id; the alert iff name, user name or email is empty; otherwise the update for that id carrying all six fields, status included, as the form holds them |
| CustomerEditor.LoadThenSave | src/pages/customers/ManageCustomer.tsx:41-73 | loading a stored customer and saving untouched sends back its fields, a missing phone or address as "" |
| CustomerEditor.CreateLoadSave | src/pages/customers/NewCustomer.tsx:45-52 | a created customer, stored and loaded into the edit page, saves back the body it was created with |
| CustomerEditor.Editor.constructor | src/pages/customers/NewCustomer.tsx:11-16 | every field empty, status "Active" |
| CustomerEditor.Editor.SetText | src/pages/customers/NewCustomer.tsx:83-132 | one field changes |
| CustomerEditor.Editor.Load | src/pages/customers/ManageCustomer.tsx:41-50 | the form becomes the stored customer, missing phone and address "" |
| Profile.CheckPasswords | src/pages/Profile.tsx:50-59 | a mismatch iff the password is non-empty and differs from the confirmation; otherwise name and email are sent, and the password iff it is non-empty |
| Profile.ProfileForm.constructor | src/pages/Profile.tsx:13-18 | not editing, every field empty, no message |
| Profile.ProfileForm.SetEditing | src/pages/Profile.tsx:187-204 | only the editing flag changes |
| Profile.ProfileForm.SetText | src/pages/Profile.tsx:108-153 | one field changes |
| Profile.ProfileForm.OnUser | src/pages/Profile.tsx:29-34 | a known user's name and email fill the form |
| Profile.ProfileForm.Submit | src/pages/Profile.tsx:45-62 | the message is cleared first; a mismatch sets "Passwords do not match" and sends nothing; otherwise the body is sent |
| Profile.ProfileForm.OnSuccess | src/pages/Profile.tsx:36-43 | after success, editing stops, both passwords are cleared, success is reset, and the next body sends no password |
| Numbers.Percent | src/pages/catalog/ManageProduct.tsx:81 | `a / 100`: NaN iff a is, and 100 times the result is a |
| Numbers.SumOfDefined | src/pages/catalog/ManageProduct.tsx:85-87 | a `reduce` sum is defined iff every term is |
| Numbers.SumOfAppend | src/pages/orders/ManageOrder.tsx:82 | the sum over a concatenation is the sum of the sums |
| Numbers.SumOfPermutation | src/pages/catalog/ManageProduct.tsx:85-87 | a `reduce` sum does not depend on the order of its terms |
| Numbers.SumOfNonNegative | src/pages/orders/ManageOrder.tsx:82 | non-negative terms have a non-negative sum |
| Numbers.SumOfUpdate | src/pages/orders/ManageOrder.tsx:82 | replacing one element replaces its term in the sum |
| Seqs.Filter | src/pages/catalog/ManageProducts.tsx:57 | `filter`: each element satisfying the predicate is kept as often as it occurs, every other dropped, in order |
| Seqs.RemoveAt | src/pages/catalog/ManageProduct.tsx:107 | `filter((_, i) => i !== index)`: exactly the indexed element goes, the rest keep their order; an index out of range removes nothing |
| Seqs.Find | src/pages/orders/ManageOrder.tsx:102 | `find`: none iff nothing matches, otherwise the first match |
| Text.ToLower | src/pages/catalog/ManageProducts.tsx:58 | `toLowerCase` on ASCII letters, character by character |
| Text.ToUpper | src/pages/discounts/ManageDiscount.tsx:166 | `toUpperCase` on ASCII letters, character by character |
| Text.ToLowerOfUpper | src/pages/catalog/ManageProducts.tsx:58-59 | lower-casing an upper-cased string equals lower-casing it directly |
| Text.ToUpperIsUpper | src/pages/discounts/ManageDiscount.tsx:166 | an upper-cased string is upper case and upper-casing it again changes nothing |
| Text.IncludesAt | src/pages/catalog/ManageProducts.tsx:58 | `includes` holds iff the substring occurs at some offset |
| Text.IncludesEmpty | src/pages/catalog/ManageProducts.tsx:58 | every string includes "" |
| Text.JoinChars | src/pages/auth/OTPVerification.tsx:86 | joining the characters of `split('')` gives the string back |

## Left out

- The network calls inside the async thunks. Their outcomes are the pending, fulfilled and rejected methods of the slice classes, called with the payload.
- `localStorage` reads and writes in the auth slice. The stored user is a parameter of `AuthSlice.Auth.constructor`.
- JSX rendering, `navigate` redirects, input focus handling, the `useEffect` scheduling (effects are folded into the handlers that trigger them), and the `FileReader` (the data URL is the parameter of `UploadImage`).
- The `setInterval` wiring of the OTP countdown. One callback is `OtpVerification.Tick`.
- `parseFloat`, `parseInt` and `toString` are parameters (`Numbers.Conversions`), not implementations. `toFixed`, `toLocaleString`, IEEE rounding and Infinity are not modelled: money is an exact `real`.
- `ProductEditor.Editor.Load`, `OrderEditor.Editor.Load`: the prices and total copied from the stored entity are overwritten in the model by the recomputation that follows. In the page they are briefly shown before the effect runs.
- `DiscountEditor.Loaded`: the date formatting (`new Date(...).toISOString().slice(0, 16)`) is a parameter `formatDate`.
- `Text.ToLower` and `Text.ToUpper` map ASCII letters only; Unicode case mapping is not modelled.
- `OrderEditor.Editor.EditItem` requires a rendered line's index. The page assigns to that index of a copied array, and an index past the end, which the page never passes, would create an incomplete line.
- `OtpVerification.OtpForm.Change` requires a value of at most one character, which the cell's `maxLength={1}` guarantees for typed input. A longer value set by other code is not modelled.
- `OtpVerification.OtpForm.ResendOtp` uses the corrected countdown restart (see Findings); the code as written is `OtpVerification.ResendAsWritten`.
- The resend button's own `disabled={timer > 0 || loading}` and the redirect when no email is given are UI. Only the handler's guard is modelled.
- Payloads that omit fields (`otpSent` missing from a login response, `_id` missing from an entity) are modelled by explicit values: `LoginResponse.otpSent` is a `bool`, ids are `Option<string>`.
- Profile.tsx imports `getUserProfile` and `updateUserProfile` from the auth slice, which does not define them. `Profile.ProfileForm.Submit` returns the body that would be dispatched, and `OnSuccess` uses the auth slice's `success` flag and `ResetSuccess`.
- The sales and customer-growth reports build their rows from `Math.random()` and the current date. They contain no deterministic logic and are not part of this model.
- Routing, the sidebar, navbar, layout, stat cards and the home page's fixed figures are static UI and not part of this model.

## Findings

| source | as written | input that shows it | evidently intended | confidence | as-written member | corrected member |
|---|---|---|---|---|---|---|
| src/pages/auth/OTPVerification.tsx:38-49, 96-101 | the interval clears itself when the countdown reaches 0, and `handleResendOtp` only sets the timer back to 60; the effect that installs the interval depends on `[location, navigate]` only, so it does not run again | wait 60 seconds, press Resend once: the timer shows 60 from then on, so `timer === 0` never holds again and Resend stays disabled | each resend starts a new 60-second countdown | not executed | OtpVerification.ResendAsWrittenFreezesTimer | OtpVerification.ResendRestartsCountdown |
