# nodeforge storefront — a verified model of the business logic

nodeforge sells configurable node hardware. A product has a base price and
four option lists (software, RAM, storage, processor). A customer picks one
label in each list, and the price is the base price plus the surcharges of
the picked options, times the quantity. Configured products go into a cart
held in the browser. Orders are stored by an Express/Mongoose back end, and
an admin dashboard pages through them. Crypto payments go through a gateway
that later calls back with the payment's status.

This project models the deterministic core of that system in Dafny:

- the two price calculators and their surcharge tables (`Constants`,
  `LegacyPrice`, `TotalPrice`);
- the cart store, as a class whose methods replace its list of lines
  (`CartStore`);
- the admin form's validator and its editing handlers (`FormValidator`,
  `ProductForm`);
- the server's product input validator, spec normalisation and page
  arithmetic (`ProductValidator`);
- the client's product list reducer (`ProductContext`);
- the order schema with its enums, defaults and unique `orderID`
  (`OrderModel`);
- the order API handlers: create, list, get, status update and delete
  (`OrderController`);
- the crypto checkout: invoice creation and the gateway's webhook
  (`CryptoPayment`);
- the client's order list state (`OrderContext`);
- the page arithmetic of the order table and the product grid (`Pagination`).

Two shared modules describe the JavaScript behaviour the core relies on:

- `Wrappers` holds `Option` and `Result`.
- `Js` holds truthiness, `trim`, `Number(...)`, `parseInt`, `Math.ceil` of
  a quotient, `slice` and `splice`.

The database is a map from `_id` to document. A new order document gets the
schema's defaults when it is built, as `new Order(...)` does; saving it runs
the validators and enforces the unique index. The
clock, freshly generated ids, the gateway's reply and the e-mail check of
the validator library are parameters of the operations that use them.

## Model

| member | source | states |
|---|---|---|
| Constants.SurchargesBounded | src/config/constants.ts:9-25 | every surcharge in the RAM, storage and processor tables is between 0 and that table's maximum |
| Constants.EntryLevelIsFree | src/config/constants.ts:10-21 | 16GB, 2TB SSD and Core i3 cost nothing |
| Constants.SurchargesIncrease | src/config/constants.ts:10-24 | RAM surcharges rise 16GB < 32GB < 64GB, 4TB SSD costs 200, and processor surcharges rise i3 < i5 < i7 < i9 |
| Constants.SoftwareHasNoSurcharge | src/config/constants.ts:1-7 | five software names are supported and none of them is a key of any surcharge table |
| LegacyPrice.CalculatePrice | src/utils/price.ts:4-20 | the result is never below the price and exceeds it by at most the sum of the three largest surcharges |
| LegacyPrice.TableSurcharge | src/utils/price.ts:13-15 | the reference definition of one table lookup, the entry's price or 0 for a key outside the table; UnknownLabelAddsZero and SurchargesBounded state what it gives |
| LegacyPrice.DefaultsApply | src/utils/price.ts:5-10 | a missing ram, storage or processor prices as 16GB, 2TB SSD or Core i3; with nothing chosen the result is the price itself |
| LegacyPrice.UnknownLabelAddsZero | src/utils/price.ts:13-15 | a RAM label outside the table adds nothing instead of failing |
| LegacyPrice.SoftwareHasNoEffect | src/utils/price.ts:17 | the software choice never changes the result, and what a configuration adds does not depend on the price |
| LegacyPrice.Examples | src/utils/price.ts:17 | 500 with 32GB is 600; 500 with 64GB, 4TB SSD and Core i9 is 1500 |
| TotalPrice.FindOption | src/utils/calculateTotalPrice.ts:56-58 | the index found is the first option whose label for that dimension equals the selection; none is found exactly when no option has it |
| TotalPrice.Surcharge | src/utils/calculateTotalPrice.ts:49-73 | a dimension without a selection or without an option list adds 0, and only a priced dimension can fail |
| TotalPrice.EffectiveQuantity | src/utils/calculateTotalPrice.ts:83-84 | a missing or zero quantity counts as 1; any other quantity is used as given |
| TotalPrice.AddOptionPrice | src/utils/calculateTotalPrice.ts:49-73 | the accumulator grows by the dimension's surcharge, or the call fails with that dimension's error |
| TotalPrice.CalculateTotalPrice | src/utils/calculateTotalPrice.ts:36-93 | the step-by-step accumulation over the four dimensions equals the total-price function |
| TotalPrice.TotalPriceOf | src/utils/calculateTotalPrice.ts:36-93 | the reference definition of `calculateTotalPrice`: base-price check, the four dimensions in order, then the quantity; CalculateTotalPrice equals it, and AllMatchedTotal, InvalidBaseFailsFirst, UnknownLabelFails and QuantityRules prove its outcomes |
| TotalPrice.AddSurcharges | src/utils/calculateTotalPrice.ts:77-80 | the reference definition of the four `addOptionPrice` calls as one fold that stops at the first error; AddSurchargesFails, AddSurchargesIgnoresQuantity and UnfoldDimensions prove its behaviour |
| TotalPrice.ResolvedSurcharge | src/utils/calculateTotalPrice.ts:56-70 | when several options share the selected label, the first one's price is the surcharge |
| TotalPrice.AllMatchedTotal | src/utils/calculateTotalPrice.ts:45-88 | when every selected label matches a priced option, the total is (base price + the four matched prices) × quantity |
| TotalPrice.UnfoldDimensions | src/utils/calculateTotalPrice.ts:77-80 | the surcharges are added in the order software, RAM, storage, processor |
| TotalPrice.MatchedSurcharge | src/utils/calculateTotalPrice.ts:56-70 | a matched option with a price yields exactly that price |
| TotalPrice.UnknownLabelFails | src/utils/calculateTotalPrice.ts:60-64 | a selected label that no option carries makes the whole calculation fail, with an unknown-option error when no earlier check fails |
| TotalPrice.AddSurchargesFails | src/utils/calculateTotalPrice.ts:49-80 | one failing dimension fails the sum, and the first failing dimension's error is the one reported |
| TotalPrice.InvalidBaseFailsFirst | src/utils/calculateTotalPrice.ts:41-43 | a product without a numeric base price fails with the base-price error before any option is looked at |
| TotalPrice.QuantityRules | src/utils/calculateTotalPrice.ts:83-88 | a negative quantity fails, zero behaves like no quantity, and a positive quantity multiplies the single-unit total |
| TotalPrice.AddSurchargesIgnoresQuantity | src/utils/calculateTotalPrice.ts:49-80 | the surcharge sum does not depend on the quantity |
| TotalPrice.LabelFieldPerDimension | src/utils/calculateTotalPrice.ts:77-80 | each dimension is matched on its own label field (name, size, type, model) |
| TotalPrice.RamExample | src/utils/calculateTotalPrice.ts:45-88 | base 500 with 32GB at 100 gives 600, and 1200 for a quantity of 2 |
| CartStore.SumsAppend | src/store/cartStore.ts:106-112 | the total price and the item count of two concatenated lists are the sums of their parts |
| CartStore.ItemCountAtLeastLines | src/store/cartStore.ts:110-112 | when every line has a positive quantity, the item count is at least the number of lines |
| CartStore.SumsUpdate | src/store/cartStore.ts:106-112 | replacing one line changes both totals by exactly that line's difference |
| CartStore.SumTotals | src/store/cartStore.ts:106-108 | the reference definition of the `reduce` over line totals; SumsAppend, SumsUpdate and RemoveSplitsSums prove how it changes |
| CartStore.SumQuantities | src/store/cartStore.ts:110-112 | the reference definition of the `reduce` over quantities; SumsAppend, ItemCountAtLeastLines, IncrementCount and DecrementEffect prove how it changes |
| CartStore.FindLine | src/store/cartStore.ts:25-29 | the line found is the first one with the same product id and the same configuration; none exactly when no line has both |
| CartStore.AddedItems | src/store/cartStore.ts:23-59 | the new list fails exactly when the unit price fails; otherwise it is one line longer for a new (id, configuration) and the same length for a known one; AddItemEffect gives the lines themselves |
| CartStore.AddItemEffect | src/store/cartStore.ts:23-59 | an existing pair gets quantity + 1 and is repriced at unit × new quantity, and the other lines are unchanged; a new pair is appended as one line of quantity 1 at the unit price; the item count grows by one |
| CartStore.AddTwice | src/store/cartStore.ts:23-59 | adding the same pair twice to an empty cart gives one line of quantity 2 at twice the unit price |
| CartStore.WithoutId | src/store/cartStore.ts:62-66 | the result keeps exactly the lines of other products |
| CartStore.WithoutIdOrder | src/store/cartStore.ts:62-66 | removal keeps the remaining lines in their order |
| CartStore.WithoutAbsentId | src/store/cartStore.ts:62-66 | removing an id that no line has leaves the cart unchanged |
| CartStore.RemoveSplitsSums | src/store/cartStore.ts:62-66 | the totals before removal are the removed lines' totals plus the remaining lines' totals |
| CartStore.MapMatching | src/store/cartStore.ts:69-99 | every line of the id gets its quantity changed by the step and is repriced, other lines are unchanged, and it succeeds exactly when every such line can be priced |
| CartStore.KeepPositive | src/store/cartStore.ts:100 | the result keeps exactly the lines with a positive quantity |
| CartStore.KeepPositiveOrder | src/store/cartStore.ts:100 | the filter distributes over concatenation, so the kept lines stay in their order |
| CartStore.KeepPositiveOfPositive | src/store/cartStore.ts:100 | a cart whose quantities are all positive passes the filter whole |
| CartStore.KeepPositiveCounts | src/store/cartStore.ts:100 | each positive line is kept as many times as it occurs, and every other line is dropped |
| CartStore.Incremented | src/store/cartStore.ts:69-83 | fails exactly when some line with the id cannot be priced, and otherwise keeps every line; IncrementCount gives the new item count |
| CartStore.Decremented | src/store/cartStore.ts:86-102 | fails exactly when some line with the id cannot be priced; otherwise it adds no line and every line left has a positive quantity; DecrementEffect and DecrementFromOne give the lines |
| CartStore.IncrementCount | src/store/cartStore.ts:69-83 | an increment keeps every quantity positive and raises the item count by the number of lines of that id, whatever their configuration |
| CartStore.DecrementFromOne | src/store/cartStore.ts:86-102 | decrementing an id whose lines all have quantity 1 is removing that id |
| CartStore.DecrementEffect | src/store/cartStore.ts:86-102 | a decrement keeps every quantity positive, leaves the other ids' lines as they were, and lowers the item count by the number of lines of that id |
| CartStore.Cart.constructor | src/store/cartStore.ts:20 | the cart starts empty |
| CartStore.Cart.AddItem | src/store/cartStore.ts:23-59 | the new lines are the add-or-merge result, or the cart is unchanged when the price cannot be computed; the item count grows by one |
| CartStore.Cart.RemoveItem | src/store/cartStore.ts:62-66 | every line of the id is removed and the total drops by those lines' totals |
| CartStore.Cart.IncrementQuantity | src/store/cartStore.ts:69-83 | the lines become the incremented list, or stay unchanged when repricing fails |
| CartStore.Cart.DecrementQuantity | src/store/cartStore.ts:86-102 | the lines become the decremented, filtered list, or stay unchanged when repricing fails; lines of other ids are untouched |
| CartStore.Cart.ClearCart | src/store/cartStore.ts:104 | the cart is empty, with total 0 and item count 0 |
| CartStore.Cart.GetTotalPrice | src/store/cartStore.ts:106-108 | the sum of the line totals (SumTotals of the items); RemoveItem and ClearCart state how it changes |
| CartStore.Cart.GetItemCount | src/store/cartStore.ts:110-112 | the sum of the quantities, at least one per line in a cart whose quantities are positive; AddItem, IncrementQuantity and ClearCart state how it changes |
| FormValidator.TrimsToEmpty | src/components/products/form/FormValidator.ts:27-61 | `!text.trim()` holds exactly for the texts made only of whitespace |
| FormValidator.ListError | src/components/products/form/FormValidator.ts:64-109 | one list's scan reports nothing exactly when the list is well formed, and otherwise a missing label or a negative price |
| FormValidator.FieldError | src/components/products/form/FormValidator.ts:27-61 | the text and base price checks pass exactly when the name, description, software and the default processor, RAM and storage are non-blank and the base price is not negative |
| FormValidator.OptionError | src/components/products/form/FormValidator.ts:64-109 | the option scans pass exactly when all four lists are well formed |
| FormValidator.EmptyListError | src/components/products/form/FormValidator.ts:112-130 | the emptiness checks pass exactly when software, RAM, storage and processor lists are all non-empty |
| FormValidator.DefaultError | src/components/products/form/FormValidator.ts:133-146 | the default checks pass exactly when the default processor, RAM and storage are offered labels |
| FormValidator.ScanOptions | src/components/products/form/FormValidator.ts:64-109 | the scan of an option list finds nothing exactly when every row has a non-blank label and a non-negative price |
| FormValidator.ValidateProductForm | src/components/products/form/FormValidator.ts:25-149 | true exactly when every check passes: non-blank texts, a non-negative base price, well-formed non-empty option lists, and default processor, RAM and storage among the offered labels |
| FormValidator.FirstError | src/components/products/form/FormValidator.ts:25-149 | the first failing check in the order the form runs them, None exactly when the form is acceptable |
| FormValidator.Acceptable | src/components/products/form/FormValidator.ts:25-149 | the reference definition of an acceptable form: filled fields, well-formed and non-empty lists, offered defaults; ValidateProductForm and FirstError are proved equivalent to it |
| FormValidator.TrimBlankAll | src/components/products/form/FormValidator.ts:27-61 | each `trim()` check rejects exactly the texts made only of whitespace |
| FormValidator.ScanMeansWellFormed | src/components/products/form/FormValidator.ts:64-109 | the early-return scan agrees with the quantified well-formedness of a list |
| FormValidator.FirstFailureReported | src/components/products/form/FormValidator.ts:25-149 | a blank name is reported whatever else is wrong, and a form that fails only on the RAM list reports that list's error |
| FormValidator.BasePriceBoundary | src/components/products/form/FormValidator.ts:37-40 | an acceptable form stays acceptable with base price 0 or the empty text, and is rejected with any negative base price |
| FormValidator.DefaultSoftwareUnchecked | src/components/products/form/FormValidator.ts:133-146 | a form whose default software is not among the software options is still accepted |
| ProductForm.WithList | src/components/products/ProductForm.tsx:80-260 | replacing one option list leaves the other three unchanged |
| ProductForm.BasePriceInput | src/components/products/ProductForm.tsx:57-62 | the base-price branch of the field handler for a text value: it stores "" exactly when handed "", and `Number(value)` otherwise; BasePriceRoundTrip proves that the text of a whole number is stored as that number |
| ProductForm.HandleFieldChange | src/components/products/ProductForm.tsx:57-62 | the reference definition of `handleFieldChange`; FieldChangeEffect proves that only the named field changes, the last write wins and different fields commute |
| ProductForm.HandleDefaultSpecChange | src/components/products/ProductForm.tsx:65-76 | the reference definition of `handleDefaultSpecChange`; DefaultSpecChangeEffect and DefaultSpecChangeKeepsValid prove that it sets one default and nothing else |
| ProductForm.NewOption | src/components/products/ProductForm.tsx:80-233 | the reference definition of the row each add handler appends: an empty software row, or Core i3, 16GB or 2TB SSD, each priced 0; AddOption and AddThenRemoveRestores state its use |
| ProductForm.HasIncompleteCpu | src/components/products/ProductForm.tsx:125-127 | the reference definition of the CPU add handler's guard: some row with a blank model or a NaN price; AddOption proves that it blocks only the CPU list |
| ProductForm.BasePriceRoundTrip | src/components/products/ProductForm.tsx:57-62 | handing the field handler the digits of n stores the number n, handing it "" stores the empty text, and neither is a negative base price |
| ProductForm.PriceInputValue | src/components/products/form/ProductInfoCard.tsx:84 | the reference definition of what the base price input hands to the field handler: `parseInt(text)`, or 0 when that is NaN or 0; PriceInputOfDecimal, PriceInputRoundTrip and PriceInputFraction prove what it reads |
| ProductForm.HandlePriceInput | src/components/products/ProductForm.tsx:312 | typing into the base price input always leaves an integer in the field, never the empty text or NaN, and changes nothing else in the form |
| ProductForm.PriceInputOfDecimal | src/components/products/form/ProductInfoCard.tsx:84 | the input reads the digits of n as n and "-" followed by them as -n |
| ProductForm.PriceInputRoundTrip | src/components/products/form/ProductInfoCard.tsx:84 | typing the digits of n stores n, with a minus sign -n; a cleared or blank input stores 0; a negative number typed makes the form unacceptable |
| ProductForm.PriceInputFraction | src/components/products/form/ProductInfoCard.tsx:84 | "1.5" stores 1, and "-1.5" stores -1, which makes the form unacceptable |
| ProductForm.FieldChangeEffect | src/components/products/ProductForm.tsx:57-62 | a later change of the same field overrides an earlier one, changes of different fields commute, and nothing else in the form changes |
| ProductForm.DefaultSpecChangeEffect | src/components/products/ProductForm.tsx:65-76 | only the chosen default spec takes the new value |
| ProductForm.DefaultSpecChangeKeepsValid | src/components/products/ProductForm.tsx:65-76 | choosing an offered, non-blank label as a default keeps an acceptable form acceptable |
| ProductForm.AddOption | src/components/products/ProductForm.tsx:80-233 | one default row is appended to the chosen list; a CPU row is not added while an existing CPU row is incomplete; the other lists and fields are unchanged |
| ProductForm.SpliceOption | src/components/products/ProductForm.tsx:94-95 | the row at the index, counted from the end when negative, is removed and the rest keep their order; an index past the end removes nothing |
| ProductForm.HandleRemoveOption | src/components/products/ProductForm.tsx:93-103 | the form after a remove is the form with that row spliced out of the chosen list |
| ProductForm.AddThenRemoveRestores | src/components/products/ProductForm.tsx:80-103 | adding a row and removing it again, by its index or by -1, restores the form |
| ProductForm.RemoveOutOfRange | src/components/products/ProductForm.tsx:93-103 | an index past the end changes nothing, and an index below minus the length removes the first row |
| ProductForm.ReplaceOption | src/components/products/ProductForm.tsx:106-110 | only the row at the index changes, to the edited row |
| ProductForm.HandleOptionChange | src/components/products/ProductForm.tsx:105-118 | the form after an edit is the form with that row edited in the chosen list |
| ProductForm.OptionChangeEffect | src/components/products/ProductForm.tsx:105-118 | a label edit sets the label and keeps the price; a price edit keeps the label, and typing the digits of n stores the number n |
| ProductForm.OptionChangeToSameLabel | src/components/products/ProductForm.tsx:105-118 | setting a row's label to its current value leaves the form unchanged |
| ProductForm.HandleSubmit | src/components/products/ProductForm.tsx:262-297 | nothing is submitted unless the form validates; the uploaded image id, when non-empty, replaces the image; an update is sent exactly in edit mode with a non-empty product id |
| ProductValidator.RecordEach | backend/validators/productValidator.js:19-47 | each loop adds exactly the fields its check flags, with that check's message overriding any earlier one |
| ProductValidator.ValidateProductInput | backend/validators/productValidator.js:11-58 | the errors map holds exactly the fields whose last failing check reports them, with that message; valid exactly when the map is empty |
| ProductValidator.RecordStages | backend/validators/productValidator.js:18-52 | after the three loops and the price check, a field has an entry exactly when its last reporting check flags it, with that check's message, and only the four known fields can have one |
| ProductValidator.FieldError | backend/validators/productValidator.js:11-58 | the reference definition of the message left for each field once every check has run; ValidateProductInput is proved equal to it, and FieldErrorByField, CreateNeverReportsEmpty and BasePriceRules prove its cases |
| ProductValidator.CheckMessage | backend/validators/productValidator.js:18-47 | the reference definition of the four checks (required on update, required on create, numeric, array); BasePriceRules, OptionsRule and CreateWithEmptyBody prove their outcomes |
| ProductValidator.FieldErrorByField | backend/validators/productValidator.js:13-15 | only name, description, basePrice and options can carry errors |
| ProductValidator.ValidMeansNoFieldError | backend/validators/productValidator.js:54-57 | the input is valid exactly when none of the four fields has an error |
| ProductValidator.CreateNeverReportsEmpty | backend/validators/productValidator.js:26-32 | on create the "cannot be empty" message never appears: an empty text is reported as missing |
| ProductValidator.UpdateChecksOnlyPresentFields | backend/validators/productValidator.js:18-23 | on update a name or description is flagged exactly when it is the empty text, and an empty body passes |
| ProductValidator.CreateWithEmptyBody | backend/validators/productValidator.js:26-32 | creating from an empty body reports name, description and basePrice as required and options as fine |
| ProductValidator.BasePriceRules | backend/validators/productValidator.js:36-52 | a base price that `Number` makes NaN gets "must be a number" (so does an array of two or more elements), a defined price of 0 or less gets "must be greater than 0" (so do null and the empty array), and a positive one passes (so does an array holding one positive number) |
| ProductValidator.OptionsRule | backend/validators/productValidator.js:43-47 | a present non-array `options` is an error; an array or an absent value is not |
| ProductValidator.FindFrom | backend/validators/productValidator.js:228 | the first occurrence of the pattern at or after the start is found, or there is none |
| ProductValidator.RemoveFirst | backend/validators/productValidator.js:228 | without an occurrence the text is unchanged, and with one it is shorter by exactly the pattern's length; RemoveFirstRamSuffix proves that only the first " RAM" goes |
| ProductValidator.NormalizeSpecs | backend/validators/productValidator.js:218-233 | missing specs stay missing; software and the other defaults are kept; the RAM default loses its first " RAM" |
| ProductValidator.RemoveFirstRamSuffix | backend/validators/productValidator.js:227-229 | removing " RAM" from a size that carries it once gives the bare size, and a size without it is unchanged |
| ProductValidator.NormalizeExamples | backend/validators/productValidator.js:218-233 | "32GB RAM" normalises to "32GB", and specs without defaults are unchanged |
| ProductValidator.ProductPage | backend/validators/productValidator.js:72-77 | the page is the parsed page, or 1 when it parses to NaN or 0; the limit is the parsed limit when it is non-zero and below 1000, 1000 when it is 1000 or more, and 100 when it parses to NaN or 0; skip is (page - 1) × limit and pages is ceil(total / limit) |
| ProductValidator.ProductPageCovers | backend/validators/productValidator.js:72-108 | with a positive limit, pages - 1 pages hold fewer than total products and pages pages hold them all, and pages is total / limit rounded up |
| ProductValidator.ProductPageHexQuery | backend/validators/productValidator.js:72-76 | `parseInt` without a radix reads "0x10" as a limit of 16 and "0x2" as page 2 |
| ProductContext.WithServerId | src/context/ProductContext.tsx:71-74 | the id becomes `_id` when that is non-empty, and stays as it was otherwise |
| ProductContext.SetAll | src/context/ProductContext.tsx:70-74 | the new list has one entry per payload product, each with its server id applied |
| ProductContext.Merge | src/context/ProductContext.tsx:82-86 | patched fields take the new values, the others keep theirs, and the id is preserved |
| ProductContext.UpdateAll | src/context/ProductContext.tsx:80-87 | products with the matching id are merged with the patch; the others are unchanged |
| ProductContext.DeleteAll | src/context/ProductContext.tsx:88-89 | exactly the products with other ids remain |
| ProductContext.Reduce | src/context/ProductContext.tsx:68-93 | the reference definition of `productReducer`; ReduceSetAddUnknown, UpdateKeepsIds, DeletePreservesOrder and DeleteIdempotent prove what each action does |
| ProductContext.ReduceSetAddUnknown | src/context/ProductContext.tsx:68-93 | SET replaces the list whatever it was, ADD appends exactly one product at the end, and an unknown action leaves the state unchanged |
| ProductContext.UpdateKeepsIds | src/context/ProductContext.tsx:80-87 | an update never changes an id, and with no matching id it changes nothing |
| ProductContext.DeletePreservesOrder | src/context/ProductContext.tsx:88-89 | a delete keeps the remaining products in order |
| ProductContext.DeleteIdempotent | src/context/ProductContext.tsx:88-89 | deleting the same id twice is deleting it once |
| ProductContext.FindIndex | src/context/ProductContext.tsx:162-164 | the index found is the first product whose id or `_id` equals the key |
| ProductContext.GetProduct | src/context/ProductContext.tsx:162-164 | the product returned is in the list and matches the key by id or `_id`; none exactly when no product matches |
| ProductContext.AddThenGet | src/context/ProductContext.tsx:75-79 | a product added with a new `_id` is what the lookup finds for that key |
| ProductContext.AddDeleteThenGet | src/context/ProductContext.tsx:75-89 | after adding and then deleting a product, the lookup finds nothing for its key |
| ProductContext.GetAfterPrefix | src/context/ProductContext.tsx:162-164 | products that do not match the key do not affect the lookup |
| OrderModel.ApplyDefaults | backend/models/Order.js:10-92 | a missing country, sameAsShipping, shipping cost, tax, discount, payment status or order status takes its schema default; the other fields are kept |
| OrderModel.ItemDefaults | backend/models/Order.js:33-60 | every line item without a quantity gets quantity 1 |
| OrderModel.Valid | backend/models/Order.js:3-96 | the reference definition of a document that passes every required and enum validator of the schema; ValidIffNoFailure, SomeFailure and DefaultsAreValid prove it |
| OrderModel.ValidIffNoFailure | backend/models/Order.js:3-96 | a document validates exactly when no path fails its required or enum rule |
| OrderModel.ValidHasNoFailure | backend/models/Order.js:3-96 | a valid document has no failing path |
| OrderModel.SomeFailure | backend/models/Order.js:3-96 | an invalid document has a failing path to report |
| OrderModel.StatusEnums | backend/models/Order.js:66-80 | a status outside its enum invalidates the document; "crypto" is a payment method; "pending" is the default of both statuses; "Completed", "Failed" and "Pending" are not order statuses |
| OrderModel.DefaultsAreValid | backend/models/Order.js:16-80 | every default the schema fills in passes the schema's own rules |
| OrderModel.Save | backend/models/Order.js:5-9 | a save succeeds exactly when the document is valid and no other document has its orderID, and then stores it under its id |
| OrderModel.SaveKeepsInvariant | backend/models/Order.js:5-9 | a successful save keeps every stored document valid and every orderID unique |
| OrderController.MissingFields | backend/controllers/orderController.js:11-19 | a field is reported exactly when it is required and falsy in the body |
| OrderController.MissingFieldsInOrder | backend/controllers/orderController.js:11-19 | the missing fields are listed in declaration order |
| OrderController.NewOrderID | backend/controllers/orderController.js:30 | never empty, and a generated id starts with "ORD-" |
| OrderController.NewDocument | backend/controllers/orderController.js:28-31 | the built document has a non-empty orderID (the one sent, if any) and the current time, keeps the customer, totalPrice and paymentMethod sent, and ApplyDefaults gives the schema's defaults |
| OrderController.CreateOrder | backend/controllers/orderController.js:8-58 | the order is created exactly when no required field is missing, the product list is non-empty, the defaulted document passes the schema's validators and its orderID is unused; it fails validation exactly when the checks pass and the document does not; the stored document is valid, keeps the body's customer, line items (with quantity defaults), subtotal, total and payment method, has the sent orderID or "ORD-" + the time, and takes "pending" for any status not sent |
| OrderController.CreateOrderRejectsMissing | backend/controllers/orderController.js:11-19 | any missing required field rejects the request with the list of missing fields |
| OrderController.MissingFieldsExample | backend/controllers/orderController.js:11-19 | a body without customer and paymentMethod is rejected with exactly ["customer", "paymentMethod"] |
| OrderController.CreateOrderRejectsEmpty | backend/controllers/orderController.js:22-26 | an empty products array is rejected |
| OrderController.CreateOrderStores | backend/controllers/orderController.js:28-33 | creating keeps the store's invariant, the payment status defaults to pending, and orders created at different times get different generated orderIDs |
| OrderController.FilterDocs | backend/controllers/orderController.js:69-77 | exactly the documents matching the status filters are kept |
| OrderController.MatchesFilter | backend/controllers/orderController.js:69-77 | the reference definition of the query filter: a truthy orderStatus or paymentStatus must equal the document's; FilterDocs and ListOrders prove that every listed document matches it |
| OrderController.InsertNewest | backend/controllers/orderController.js:79 | inserting into a newest-first list gives a newest-first permutation with the new document added |
| OrderController.SortNewest | backend/controllers/orderController.js:79 | the result is newest first and a permutation of the input |
| OrderController.Window | backend/controllers/orderController.js:80-81 | the window holds the documents from the skip onwards, at most the limit of them |
| OrderController.WindowOf | backend/controllers/orderController.js:79-81 | a window of a newest-first list is newest first and holds only documents of that list |
| OrderController.ListOrders | backend/controllers/orderController.js:61-101 | a listing holds at most the limit of matching documents, newest first, with the total of all matching documents, the parsed page and ceil(total / limit) pages; a negative skip is an error |
| OrderController.ListPage | backend/controllers/orderController.js:64-101 | for a given page and non-zero limit: a NegativeSkip error exactly when (page - 1) × limit < 0; otherwise at most Abs(limit) matching documents, newest first, exactly the window after the earlier pages, with the total and ceil(total / limit) pages |
| OrderController.ListOrdersWindow | backend/controllers/orderController.js:64-81 | with a positive limit the page is the run of sorted matching documents after (page - 1) × limit |
| OrderController.ListOrdersPages | backend/controllers/orderController.js:90 | the page count is the ceiling of total / limit |
| OrderController.ListOrdersDefault | backend/controllers/orderController.js:64-66 | without a query the first ten matching documents are listed |
| OrderController.UpdateFields | backend/controllers/orderController.js:156-158 | the update holds exactly the statuses that were supplied |
| OrderController.Applied | backend/controllers/orderController.js:160-164 | applying an update sets the supplied statuses and changes nothing else |
| OrderController.UpdateOrderStatus | backend/controllers/orderController.js:137-195 | a bad id and a request with neither status are rejected; a supplied status outside its enum is a validation error, exactly; an unknown id is not found; the update succeeds exactly when the id is well formed and stored, some status is supplied and every supplied one is in its enum, and then only that order's supplied statuses change |
| OrderController.UpdateKeepsValid | backend/controllers/orderController.js:160-164 | an update that passes the enum validators keeps a valid order valid |
| OrderController.IsValidObjectId | backend/controllers/orderController.js:5 | the reference definition of `ObjectId.isValid` on a string: 12 characters, or 24 hex digits; GetOrderById and DeleteOrder prove that any other id answers 400 |
| OrderController.GetOrderById | backend/controllers/orderController.js:103-134 | a malformed id is rejected, an unknown one is not found, and otherwise the stored order is returned |
| OrderController.DeleteOrder | backend/controllers/orderController.js:198-230 | a delete fails exactly for a malformed or unknown id; otherwise it removes that one order and keeps every other |
| OrderController.DeleteThenDelete | backend/controllers/orderController.js:209-216 | a delete keeps the store's invariant, and deleting again reports not found |
| OrderController.DeleteThenGet | backend/controllers/orderController.js:103-134 | after a delete the order is not found, and a delete fails only where a lookup fails too |
| CryptoPayment.Quantity | backend/routes/CryptoPaymentRoutes.js:44 | a missing or zero quantity counts as 1 |
| CryptoPayment.LineAmount | backend/routes/CryptoPaymentRoutes.js:44 | the reference definition of one line's amount in dollars: cents / 100 × the quantity, which defaults to 1; TotalAmountAppend and TotalAmountExample prove the fold over it |
| CryptoPayment.TotalAmount | backend/routes/CryptoPaymentRoutes.js:43-45 | no line items give 0, and non-negative lines give a non-negative total |
| CryptoPayment.TotalAmountAppend | backend/routes/CryptoPaymentRoutes.js:43-45 | the total of concatenated line items is the sum of the totals |
| CryptoPayment.TotalAmountExample | backend/routes/CryptoPaymentRoutes.js:43-45 | 2500 cents once is 25; 2500 with quantity 0 plus 1000 three times is 55 |
| CryptoPayment.CryptoOrder | backend/routes/CryptoPaymentRoutes.js:34-62 | the new order has orderID "CRYPTO-" + the time, pending statuses, the crypto method, and subtotal = total = the computed amount |
| CryptoPayment.TrimmedEmail | backend/routes/CryptoPaymentRoutes.js:35 | the reference definition of `customer.email?.trim()`; CreateCryptoPayment proves that an invalid address answers 400 and an absent one 500 |
| CryptoPayment.SaveAndInvoice | backend/routes/CryptoPaymentRoutes.js:64-108 | the order is stored exactly when the save succeeds, and an invoice is reported exactly when it is stored and the gateway returned an id |
| CryptoPayment.CreateCryptoPayment | backend/routes/CryptoPaymentRoutes.js:24-119 | a missing shippingInfo or customer, or an invalid e-mail, is a bad request that stores nothing; otherwise the crypto order is stored or nothing is; the reply carries the gateway's id |
| CryptoPayment.CreateCryptoPaymentSaves | backend/routes/CryptoPaymentRoutes.js:24-119 | the store keeps its invariant, and an order is stored exactly when the request passes its checks and the save succeeds |
| CryptoPayment.CreateWithoutFirstName | backend/routes/CryptoPaymentRoutes.js:50-64 | a customer without first name fails the schema: a server error, and nothing is stored |
| CryptoPayment.FindByOrderID | backend/routes/CryptoPaymentRoutes.js:133 | the order found carries that orderID; none exactly when no order does |
| CryptoPayment.MarkAsWritten | backend/routes/CryptoPaymentRoutes.js:141-147 | confirmed or finished writes "Completed", failed or expired "Failed", waiting or pending "Pending", any other status nothing; only orderStatus changes |
| CryptoPayment.WebhookAsWritten | backend/routes/CryptoPaymentRoutes.js:122-175 | a missing field is rejected with the store unchanged, and not-found and failure change nothing |
| CryptoPayment.WrittenWebhookNeverRecords | backend/routes/CryptoPaymentRoutes.js:141-149 | whenever the status is one of the six mapped words the save fails and the store is unchanged |
| CryptoPayment.WrittenWebhookKeepsStore | backend/routes/CryptoPaymentRoutes.js:122-175 | over a store of valid orders the webhook never changes anything |
| CryptoPayment.WrittenWebhookMissesOrder | backend/routes/CryptoPaymentRoutes.js:74-137 | the invoice's order_id (the `_id`) does not find the order stored under it |
| CryptoPayment.MarkPayment | backend/routes/CryptoPaymentRoutes.js:141-147 | the mapped status is written to paymentStatus as completed, failed or pending; any other status changes nothing; the field stays inside its enum |
| CryptoPayment.HandleWebhook | backend/routes/CryptoPaymentRoutes.js:122-175 | a missing field is rejected; an order is not found exactly when no order has that `_id`; otherwise its payment status is recorded and an e-mail is sent exactly for a confirmed payment |
| CryptoPayment.HandleWebhookRecords | backend/routes/CryptoPaymentRoutes.js:141-153 | a known order always gets its status recorded, the store keeps its invariant, and a confirmed payment is stored as completed |
| CryptoPayment.HandleWebhookIdempotent | backend/routes/CryptoPaymentRoutes.js:141-149 | replaying the same notification gives the same reply and the same store |
| OrderContext.PageRequest | src/context/OrderContext.tsx:162-166 | a page is fetched exactly when it lies between 1 and the number of pages, at the current limit |
| OrderContext.PageSizeRequest | src/context/OrderContext.tsx:168-172 | a new page size is fetched exactly when it is positive, from page 1 |
| OrderContext.Prepended | src/context/OrderContext.tsx:190 | the created order comes first, followed by the earlier list |
| OrderContext.Replaced | src/context/OrderContext.tsx:216-218 | every order with the id becomes the updated one and the others are unchanged |
| OrderContext.Removed | src/context/OrderContext.tsx:265 | exactly the orders with other ids remain |
| OrderContext.Find | src/context/OrderContext.tsx:279-281 | the order found is in the list and has the id; none exactly when no order has it |
| OrderContext.FindFirst | src/context/OrderContext.tsx:279-281 | the lookup returns the first order with the id |
| OrderContext.AddThenFind | src/context/OrderContext.tsx:190 | after an add the lookup finds the new order, and every other id finds what it found before |
| OrderContext.ReplacedEffect | src/context/OrderContext.tsx:216-218 | an unknown id changes nothing, a known one is then found as the updated order, and other ids are unaffected |
| OrderContext.RemovedFind | src/context/OrderContext.tsx:265 | after a delete the id is not found, and other ids find what they found before |
| OrderContext.RemovedKeepsOrder | src/context/OrderContext.tsx:265 | a delete keeps the remaining orders in order |
| OrderContext.RemovedIdempotent | src/context/OrderContext.tsx:265 | deleting the same id twice is deleting it once |
| OrderContext.OrderProvider.constructor | src/context/OrderContext.tsx:112-117 | the provider starts with no orders on page 1 of 1, twenty per page |
| OrderContext.OrderProvider.FetchAnswered | src/context/OrderContext.tsx:128-160 | a successful answer replaces the orders and the pagination with the requested limit; an unsuccessful one changes nothing |
| OrderContext.OrderProvider.OrderAdded | src/context/OrderContext.tsx:190 | the created order is prepended and the pagination is unchanged |
| OrderContext.OrderProvider.OrderUpdated | src/context/OrderContext.tsx:241-243 | the orders with the id are replaced and the pagination is unchanged |
| OrderContext.OrderProvider.OrderDeleted | src/context/OrderContext.tsx:265 | the orders with the id are removed and the pagination is unchanged |
| OrderContext.OrderProvider.GetOrder | src/context/OrderContext.tsx:279-281 | the order returned is held and has the id; none exactly when no held order has it |
| Pagination.TotalPages | src/pages/dashboard/Orders.tsx:67 | the page count is the ceiling of length / size, and 0 exactly for an empty list |
| Pagination.PageItems | src/pages/dashboard/Orders.tsx:62-65 | the reference definition of the page slice; PageItemsWindow, PageNonEmpty, FirstPagesPrefix and PagesCoverList prove what it holds |
| Pagination.PageItemsWindow | src/pages/dashboard/Orders.tsx:62-65 | the page is the run of at most `size` items starting after the earlier pages |
| Pagination.PageNonEmpty | src/pages/Products.tsx:46-51 | a page holds items exactly when it is at most the page count |
| Pagination.FirstPagesPrefix | src/pages/dashboard/Orders.tsx:62-67 | the first k pages together are the first k × size items |
| Pagination.PagesCoverList | src/pages/dashboard/Orders.tsx:62-67 | all pages in turn show every item once, in list order |
| Pagination.PreviousPage | src/pages/dashboard/Orders.tsx:235 | Previous never goes below page 1 and moves back at most one page |
| Pagination.NextPage | src/pages/dashboard/Orders.tsx:243 | Next never passes the last page and moves forward at most one page |
| Pagination.PageStepsStayInRange | src/pages/dashboard/Orders.tsx:235-244 | from a page in range both buttons stay in range and move by one, and the button that would not move is exactly the disabled one |
| Pagination.NextThenPrevious | src/pages/dashboard/Orders.tsx:235-243 | Next then Previous returns to the page, away from the last page |
| Pagination.OrdersOnPage | src/pages/dashboard/Orders.tsx:34-65 | the table shows at most 10 orders, those from (page - 1) × 10 onwards |
| Pagination.OrderTablePages | src/pages/dashboard/Orders.tsx:67-225 | the controls appear exactly with more than 10 orders, and the page count just covers the list |
| Pagination.ProductsOnPage | src/pages/Products.tsx:20-51 | the grid shows at most 6 products, those from (page - 1) × 6 onwards |
| Pagination.ProductGridPages | src/pages/Products.tsx:46-76 | the pagination appears exactly with more than 6 products, and the page count just covers the list |
| Js.Trim | src/components/products/form/FormValidator.ts:27-61 | what `trim()` leaves is no longer than the text and starts and ends with a character outside ECMAScript's WhiteSpace and LineTerminator sets |
| Js.TrimEmptyIffBlank | src/components/products/form/FormValidator.ts:27-35 | `trim()` gives "" exactly for the texts made only of whitespace, including U+3000 and the other Unicode space separators |
| Js.TrimSurrounded | backend/routes/CryptoPaymentRoutes.js:35 | `trim()` removes exactly the blank padding around a text that starts and ends with a non-whitespace character |
| Js.Truthy | backend/validators/productValidator.js:27 | the reference definition of `!!v`: false exactly for undefined, null, false, 0, NaN and ""; CreateWithEmptyBody and OptionsRule use it |
| Js.IsWhitespace | src/components/products/form/FormValidator.ts:27-61 | the reference definition of the characters `trim` removes: the ECMAScript WhiteSpace and LineTerminator sets |
| Js.TrimStart | backend/validators/productValidator.js:72-74 | never longer than the text, a suffix of it, and not starting with whitespace |
| Js.TrimEnd | src/components/products/form/FormValidator.ts:27-61 | never longer than the text, a prefix of it, and not ending with whitespace |
| Js.DecimalString | backend/controllers/orderController.js:30 | a non-empty run of digits without a leading zero; StringToNumberOfDecimal and ParseIntOfDecimal prove it reads back as the number |
| Js.StringToNumber | src/components/products/ProductForm.tsx:57-62 | `Number(text)` is 0 for a blank text; optionally signed decimal digit runs read as their value |
| Js.StringToNumberOfDecimal | src/components/products/ProductForm.tsx:105-118 | `Number` reads back the decimal text of a non-negative integer |
| Js.ToNumber | backend/validators/productValidator.js:36-52 | `Number([])` is 0, an array of one number is that number, an array of undefined or null is 0, two or more elements are NaN; a blank string is 0; undefined and plain objects are NaN |
| Js.ToNumberOfArrays | backend/validators/productValidator.js:36-52 | an array holding a number, its decimal text, or a nested array of that text reads as the number; `[true]` is NaN while `true` is 1 |
| Js.ParseInt | backend/validators/productValidator.js:72-74 | an absent or blank query is NaN |
| Js.ParseIntOfDecimal | backend/controllers/orderController.js:64-65 | `parseInt` reads back the decimal text of an integer, with or without a minus sign |
| Js.ParseIntFraction | src/components/products/form/ProductInfoCard.tsx:84 | `parseInt` stops at a decimal point: "1.5" is 1 and "-1.5" is -1 |
| Js.ParseIntHex | backend/validators/productValidator.js:72-74 | without a radix "0x10" is 16 and "-0X1f" is -31, "0x" alone is NaN, and "12abc" is 12 |
| Js.ParseIntOr | backend/controllers/orderController.js:64-65 | a query that parses to NaN or 0 gives the default, any other parsed value is used as given, so a non-zero default never yields 0 |
| Js.Slice | src/pages/dashboard/Orders.tsx:62-65 | inside the bounds `slice(start, end)` is the run from start to end; each element comes from the clamped start onwards, and a start past the end gives [] |
| Js.SpliceOne | src/components/products/ProductForm.tsx:93-103 | `splice(i, 1)` at an index inside the array removes that element and shifts the rest down by one; a negative index counts from the end; an index past the end changes nothing |
| Js.RelativeIndex | src/components/products/ProductForm.tsx:94-95 | the index `slice` and `splice` use always lies within [0, len]; Slice and SpliceOne state the negative and past-the-end cases |
| Js.CeilDiv | backend/controllers/orderController.js:90 | the reference definition of `Math.ceil(a / b)` computed exactly; CeilDivPositive and CeilDivNat prove what it is |
| Js.CeilDivPositive | src/pages/dashboard/Orders.tsx:67 | `Math.ceil(a / b)` for a positive b is the least count c with a <= c × b |
| Js.CeilDivNat | backend/controllers/orderController.js:90 | for a non-negative count and positive divisor `Math.ceil` is integer division rounded up |

## Left out

- Network, database and browser I/O are not modelled: axios calls, Mongoose queries, toasts, logging and the localStorage persistence of the cart. Each handler is modelled as the state change it makes once its call has answered.
- The gateway, the clock and the validator library's e-mail check are parameters: the invoice id, `Date.now()` and `isEmail`. Sending the confirmation e-mail is reported as a flag, not modelled. The gateway's answer fields that are only echoed back to the client are also left out.
- The other payment routes are not part of this model: Stripe, Paystack, the exchange rate and HMAC signature checks.
- Prices in the product, form and cart world are integers, as are line-item cents in the crypto route; floating point is not modelled. Order money fields are exact reals.
- Js.StringToNumber models `Number(text)` for blank texts and optionally signed digit runs only. Every other text, including fractions, exponents and hexadecimal, is treated as NaN. This shows in the form code: an option price typed as "-1.5" reads as NaN and passes FormValidator.ValidateProductForm, while the form reads -1.5 and rejects it; a CPU price typed as "1.5" makes ProductForm.HasIncompleteCpu hold, so AddOption refuses the CPU row that the form would add.
- CartStore.Cart.AddItem, IncrementQuantity and DecrementQuantity: a price that cannot be computed throws inside the store's `set`. It is modelled as the update failing and the cart staying as it was.
- ProductForm.HandleOptionChange requires an index inside the list. The source would write a new row at an index past the end, which the form never does.
- The remove and change handlers read the form from their render's closure. The model applies them to the current state, so two stale edits in one render are not modelled.
- ProductForm.BasePriceInput and ProductForm.BasePriceRoundTrip model the field handler's base-price branch for a text value. The form never hands it text: the price input passes `parseInt(text) || 0`, modelled by ProductForm.HandlePriceInput, so "" and NaN never reach the handler from the form.
- Request values are taken as well typed. Express's query parser gives an array for a repeated key (`?page=2&page=3` reaches `parseInt` as "2,3", which is 2) and an object for bracketed keys (NaN); OrderController.ListQuery and Js.ParseInt take a single text or nothing. A crypto line item without `price_data` throws at CryptoPaymentRoutes.js line 44 and answers 500; CryptoPayment.LineItem always has the price data.
- OrderController.NewDocument always sets `createdAt` to the current time. With the schema's `timestamps` option, a `createdAt` sent in the request body is kept instead; the model's order has no "absent" timestamp to tell the two apart.
- OrderController.ListOrders takes the collection as a sequence. Documents with equal `createdAt` may come back in either order, and a negative limit is modelled as its absolute value, the way MongoDB treats it.
- OrderController.UpdateOrderStatus runs the enum validators before the lookup, as an update with validators does. Concurrent writers are not modelled.
- CryptoPayment.CreateCryptoPayment stores no `payment_id`. The schema has no such path, so the write on line 96 is dropped by the strict schema and only reaches the reply.
- CryptoPayment.WebhookAsWritten and `FindByOrderID` pick some order with the orderID. The unique index makes it the only one.
- The loading and error flags of the two contexts and the refetch after add and delete are not modelled.
- OrderContext.OrderProvider keeps statuses as strings. The client's OrderStatus type omits "returned", which the server accepts.
- Presentational components and the routes' response shapes are not modelled.

## Findings

| source | as written | input that shows it | evidently intended | confidence | as-written member | corrected member |
|---|---|---|---|---|---|---|
| backend/routes/CryptoPaymentRoutes.js:141-149 | the webhook writes "Completed", "Failed" or "Pending" into orderStatus, none of which is in the schema's orderStatus enum (backend/models/Order.js:76-80), so the save fails with a validation error and the answer is 500 | a stored crypto order and a notification with payment_status "finished" | record the payment's outcome with values the schema accepts (completed / failed / pending in paymentStatus) | high, not executed | CryptoPayment.WrittenWebhookNeverRecords | CryptoPayment.HandleWebhookRecords |
| backend/routes/CryptoPaymentRoutes.js:74-137 | the invoice is created with order_id set to the document's `_id`, but the webhook looks the order up by its `orderID` field, which holds "CRYPTO-<time>" | an order stored under `_id` "k" with orderID "CRYPTO-1", and a notification whose order_id is "k" | look the order up by `_id`, the value the invoice carries | high, not executed | CryptoPayment.WrittenWebhookMissesOrder | CryptoPayment.HandleWebhook |
