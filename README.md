# Coupon cart store, modelled in Dafny

This project models the in-memory shop back end of `assign-eccom`:

- The `CouponCartStore` holds:
  - a fixed catalog of six products;
  - one cart of lines keyed by product id;
  - at most one applied discount code;
  - the list of issued codes, seeded with `SAVE15` at 15%;
  - an append-only list of orders.
- Its commands add and remove cart lines, clear the cart, apply and remove a code, and place an order. Placing an order consumes the applied code, and every second order issues a 10% `SAVE10-` code.
- Its queries derive the cart view (subtotal, discount, total), the order list newest first, one order by id, and the admin aggregates.
- The checkout request first checks the customer's details against eight field rules. A broken rule answers 400 with the joined messages. Otherwise the order is placed: a store error answers 500 with its message, and success answers 200.

Layout:

| file | contents |
|---|---|
| `results.dfy` | the `Option` and `Result` datatypes |
| `sequences.dfy` | first-match search (`find`/`findIndex`), reversal, and the left folds behind `reduce` |
| `types.dfy` | the records the store exchanges, and the store's errors with their messages |
| `pricing.dfy` | the catalog; the cart commands as functions on the line sequence; code matching; the cart view; the admin aggregates. Each comes with its lemmas. |
| `store.dfy` | class `CouponCartStore`: fields, invariant `Valid()`, and one method or function per store operation |
| `checkout.dfy` | the checkout field rules, the validation report, and the route's status mapping |
| `scenarios.dfy` | runs of the store from start-up whose outcomes follow from the contracts alone |

Modelling choices:

- The cart `Map` becomes a sequence of lines in insertion order, which is the `Map`'s iteration order. It has one line per product id.
- Each command is specified by a pure function on the old lines (`AddLine`, `RemoveOne`). Lemmas state what those functions do to quantities, the subtotal and the invariant.
- The applied code is an index into `discountCodes`. The source stores a reference to the very entry in the list, so when an order marks that entry used, the applied code is the used one.
- The view (`getCartState`, store.ts:54-56) applies whatever code is applied and never reads `isUsed`. A second order placed without clearing therefore receives the same discount again (`Scenarios.DiscountOutlivesItsUse`).
- Money is an exact `real`.

## Model

| member | source | states |
|---|---|---|
| Store.CouponCartStore.constructor | assign-eccom/src/lib/store.ts:8-16 | Start-up state: empty cart, no applied code, no orders, only an unused `SAVE15` at 15%; the catalog is the six products. |
| Store.CouponCartStore.GetProducts | assign-eccom/src/lib/store.ts:37-46 | The catalog has six products with pairwise distinct ids and positive prices. |
| Store.CouponCartStore.AddToCart | assign-eccom/src/lib/store.ts:76-98 | Fails with "Product not found" exactly when no catalog product has the id, and then changes nothing. Otherwise the cart becomes `AddLine` of the old cart. Only the cart changes, one line per id is kept, and the result is the new cart view. |
| Pricing.AddLineKeepsOthers | assign-eccom/src/lib/store.ts:82-96 | `Pricing.AddLine`, the cart after `addToCart`: at most one line longer, every existing line keeps its place and id, and every line of another product is kept unchanged, with no other line added. |
| Pricing.AddLineQuantity | assign-eccom/src/lib/store.ts:82-96 | After adding `q` of product `p`, `p` has `q` more units and every other product's units are unchanged. |
| Pricing.AddLineSubtotal | assign-eccom/src/lib/store.ts:82-96 | Adding `q` of a catalog product raises the subtotal by its catalog price times `q`, whether a line is merged or appended. |
| Pricing.AddLineInvariant | assign-eccom/src/lib/store.ts:82-96 | Adding keeps one line per id, with lines carrying catalog data, and keeps every line at one unit or more when `q >= 1`. |
| Store.CouponCartStore.RemoveFromCart | assign-eccom/src/lib/store.ts:100-112 | Fails with "Item not in cart" exactly when the cart has no line for the id, and then changes nothing. Otherwise the cart becomes `RemoveOne` of the old cart and nothing else changes. |
| Pricing.RemoveOneKeepsOthers | assign-eccom/src/lib/store.ts:101-107 | `Pricing.RemoveOne`, the cart after `removeFromCart`: the same length or one line shorter, and every line of another product is kept unchanged, with no other line added. |
| Pricing.RemoveOneQuantity | assign-eccom/src/lib/store.ts:101-107 | A line with more than one unit loses exactly one unit. A line with one unit or fewer leaves the id with 0 units. Every other id's units are unchanged. |
| Pricing.RemoveOneDeletes | assign-eccom/src/lib/store.ts:103-107 | The product keeps its line exactly when it held more than one unit; otherwise the line is deleted. |
| Pricing.RemoveOneSubtotal | assign-eccom/src/lib/store.ts:101-107 | Decrementing takes the line's price off the subtotal; deleting takes the line's whole total off. |
| Pricing.RemoveOneInvariant | assign-eccom/src/lib/store.ts:101-107 | Removing keeps one line per id, catalog data, and positive quantities. |
| Pricing.LineIndexConcat | assign-eccom/src/lib/store.ts:82-83 | A lookup in a concatenation finds the first part's line if there is one, else the second part's line shifted by the first part's length, else nothing. |
| Pricing.LineIndexDelete | assign-eccom/src/lib/store.ts:106 | Deleting a line shifts the position of every later line down by one and leaves earlier ones in place. |
| Pricing.FindProduct | assign-eccom/src/lib/store.ts:77 | Returns a catalog product with the id, or nothing exactly when no product has it. |
| Store.CouponCartStore.ClearCart | assign-eccom/src/lib/store.ts:114-118 | Empties the cart and drops the applied code; orders and codes are unchanged; the view shows zero subtotal and total and no code. |
| Store.CouponCartStore.ApplyDiscount | assign-eccom/src/lib/store.ts:120-127 | Succeeds exactly when some unused code equals the input up to case. It then replaces the applied code with the first such code. Otherwise it fails with "Invalid or used discount code." and keeps the applied code. Cart, orders and codes never change. |
| Pricing.UsableIndex | assign-eccom/src/lib/store.ts:121 | A found code equals the input up to case and is unused; nothing is found exactly when every code differs up to case or is used. |
| Pricing.UsableIndexIff | assign-eccom/src/lib/store.ts:121-124 | A code can be applied if and only if some issued code matches it up to case and is unused. |
| Pricing.UsedCodeRejected | assign-eccom/src/lib/store.ts:121-124 | With codes distinct up to case, a used code cannot be applied under any spelling. |
| Store.CouponCartStore.RemoveDiscount | assign-eccom/src/lib/store.ts:129-132 | Drops only the applied code; lines, orders and codes are unchanged; the view's discount is 0 and its total equals its subtotal. |
| Store.CouponCartStore.GetCartView | assign-eccom/src/lib/store.ts:72-74 | `getCart` lists the cart's lines, their summed subtotal, exactly the applied code's percentage of it as discount, the rest as total, and the applied code's string as label whenever that string is non-empty, and no label otherwise. Without a code nothing is taken off. With every line at one unit or more, discount and total lie between 0 and the subtotal. |
| Pricing.ViewArithmetic | assign-eccom/src/lib/store.ts:50-65 | `getCartState`, the function `Pricing.View`, for every cart: the subtotal is the sum of price times quantity, and the total is the subtotal less the discount. With percentage `p` the discount is exactly `p`% of the subtotal and the total the remaining `(100-p)`%. Without a code the discount is 0. For non-negative lines and a percentage of 0 to 100, both lie between 0 and the subtotal. |
| Pricing.PercentExact | assign-eccom/src/lib/store.ts:55-57 | For any amount, a code at `p`% takes exactly `p`% off and leaves exactly `(100-p)`%. |
| Pricing.PercentOf | assign-eccom/src/lib/store.ts:55-57 | On a non-negative subtotal, a discount of 0 to 100 percent and what remains both lie between 0 and the subtotal. |
| Pricing.ViewIgnoresUse | assign-eccom/src/lib/store.ts:54-56 | The view is the same whether or not the applied code is marked used. |
| Store.CouponCartStore.CreateOrder | assign-eccom/src/lib/store.ts:134-169 | An empty cart fails with "Cannot create an order with an empty cart." and adds no order. Otherwise exactly one order is appended, equal to the cart view at call time. The applied entry, and only it, is marked used. Cart and applied code stay as they were. A new code is issued exactly when the order count becomes even. |
| Pricing.CodeIndexFindsOwn | assign-eccom/src/lib/store.ts:153-158 | Looking up the applied code's own string finds that very entry, so no other entry is marked. |
| Pricing.MarkUsed | assign-eccom/src/lib/store.ts:156 | Marking an entry used keeps codes distinct and every code string and percentage unchanged. |
| Store.CouponCartStore.GenerateNthOrderDiscount | assign-eccom/src/lib/store.ts:171-183 | Unless forced, nothing is issued when the order count is 0 or odd, and then the state is unchanged. Otherwise exactly one code is appended and returned. It is unused, at 10%, and spelled `SAVE10-` plus the suffix. |
| Pricing.NewCode | assign-eccom/src/lib/store.ts:176-180 | An issued code starts with `SAVE10-`, is 15 characters long, is at 10% and is unused. |
| Pricing.AddCode | assign-eccom/src/lib/store.ts:181 | Appending a code that differs up to case from every issued code keeps the codes distinct with percentages in 0..100. |
| Store.CouponCartStore.GetOrders | assign-eccom/src/lib/store.ts:185-187 | All orders, newest first. |
| Store.CouponCartStore.GetOrderById | assign-eccom/src/lib/store.ts:189-191 | A found order has the id and is among the orders; nothing is found exactly when no order has the id. |
| Store.CouponCartStore.GetAdminStats | assign-eccom/src/lib/store.ts:193-204 | Item count is the sum of line quantities over all orders. Revenue is the sum of order totals and discounts the sum of order discounts. Revenue plus discounts equals the sum of order subtotals. The codes are listed newest first. |
| Pricing.RevenuePlusDiscounts | assign-eccom/src/lib/store.ts:194-196 | Over orders built from cart views, total revenue plus total discounts equals the total of subtotals. |
| Pricing.AddOrder | assign-eccom/src/lib/store.ts:140-151 | Appending an order built from a cart view under a new id keeps order ids distinct and every order consistent with its items. |
| Checkout.CardRulesOnSamples | assign-eccom/src/app/api/checkout/route.ts:13-15 | `CardNumberOk`, `ExpiryOk` and `CvcOk` at their boundaries: 16 digits pass, while 15 or 17 digits, or a dash, fail. `12/25` and `01/30` pass; `13/25`, `00/25`, `1/25` and `12-25` fail. 3 or 4 digits pass; 2, 5 or a letter fail. |
| Checkout.ExpiryIsMonthSlashYear | assign-eccom/src/app/api/checkout/route.ts:14 | The expiry rule accepts exactly `MM/YY` with a month from 1 to 12 and any two-digit year. |
| Checkout.Broken | assign-eccom/src/app/api/checkout/route.ts:7-16 | The failing fields are exactly the listed fields whose rule does not hold. They keep the schema's order, and there are no more of them than fields. |
| Checkout.ValidationErrors | assign-eccom/src/app/api/checkout/route.ts:8-15 | The messages `parse` reports, built from `Holds` and `Message` per field. There is no message exactly when every rule holds. Every broken rule has its message reported, and every reported message belongs to a broken rule, in field order. |
| Checkout.MessagesOfBroken | assign-eccom/src/app/api/checkout/route.ts:8-15 | Messages listed one per broken field report exactly the broken rules, and none exactly when all rules hold. |
| Checkout.TestCustomerAccepted | assign-eccom/src/lib/store.test.ts:26-35 | The tests' customer details meet every rule, given that the email rule accepts their address. |
| Checkout.ValidationErrorsExact | assign-eccom/src/app/api/checkout/route.ts:7-16 | There is no message exactly when every rule holds (length minimums 2/5/2/4, email, 16-digit card, MM/YY expiry, 3–4 digit CVC). A field is reported if and only if it breaks its rule. |
| Checkout.AcceptableIsEveryRule | assign-eccom/src/app/api/checkout/route.ts:7-16 | The schema holds if and only if every field's rule holds. |
| Checkout.Join | assign-eccom/src/app/api/checkout/route.ts:29 | `join(', ')`: no messages join to the empty text; `Checkout.SplitJoin` is its inverse. |
| Checkout.SplitJoin | assign-eccom/src/app/api/checkout/route.ts:29 | Joining comma-free messages with ", " can be undone by cutting at ", ". |
| Checkout.ReportNamesBrokenRules | assign-eccom/src/app/api/checkout/route.ts:28-29 | The 400 message splits back into exactly the failing fields' messages, in order. |
| Types.ErrorMessagesDistinct | assign-eccom/src/lib/store.ts:79-137 | The four store errors ("Product not found", "Item not in cart", "Invalid or used discount code.", "Cannot create an order with an empty cart.") have pairwise different messages, so a 500 body names its error. |
| Checkout.Checkout | assign-eccom/src/app/api/checkout/route.ts:18-33 | Broken details give 400 with the joined messages, and the store is unchanged: no order, no code marked. Valid details with an empty cart give 500 with the empty-cart message. Otherwise the order is placed for these details and the answer is 200. |
| Scenarios.MergeThenDecrement | assign-eccom/src/lib/store.test.ts:63-87 | Adding 1 then 2 mugs gives one line of 3. Removing one unit leaves 2, and removing from a line of 1 empties the cart. |
| Scenarios.SaveFifteenOnOneMug | assign-eccom/src/lib/store.test.ts:100-107 | One mug at 42 with `save15` applied shows code `SAVE15`, 6.30 off and 35.70 to pay. |
| Scenarios.OrderMugWithSave15 | assign-eccom/src/lib/store.test.ts:168-171 | Ordering the mug with SAVE15 records 6.30 off and 35.70, issues no code, marks SAVE15 used and leaves it applied. |
| Scenarios.UsedCodeIsRejected | assign-eccom/src/lib/store.test.ts:168-180 | After that order and a cleared cart, applying SAVE15 again fails with "Invalid or used discount code.". |
| Scenarios.DiscountOutlivesItsUse | assign-eccom/src/lib/store.ts:153-158 | Without clearing, a second order again gets 6.30 off under `SAVE15`. |
| Scenarios.SecondOrderEarnsCode | assign-eccom/src/lib/store.test.ts:133-150 | The second order issues an unused 10% code `SAVE10-`+suffix, and the admin view lists it. |
| Scenarios.OrderOneMug | assign-eccom/src/lib/store.test.ts:154-162 | The first order of one mug has id `mock-uuid-1`, total 42, no discount and one unit. |
| Scenarios.AdminStatsOfTwoOrders | assign-eccom/src/lib/store.test.ts:197-214 | A mug, then two T-shirts with SAVE15, gives 3 units, revenue 135.50 and discounts 16.50. |

## Left out

- The React pages and components, and the client cart provider, are not part of this model; they are presentation and network plumbing. The provider clears the cart after a successful checkout (`assign-eccom/src/contexts/cart-provider.tsx:149`). The store itself does not, and the model keeps that.
- HTTP and JSON handling: request parsing and response construction are not modelled. The checkout route is modelled from validation onwards.
- Missing or non-string checkout fields, and the schema library's own messages for them, are not modelled: every field is a string.
- The email rule is the schema library's own check. It is a parameter `isEmail` of the checkout model, not a definition.
- uuid and the clock are parameters:
  - the order id and the creation time are handed to `CreateOrder`;
  - the 8-character code suffix is assumed to be upper-case hex;
  - the order id is assumed new, and the issued code new up to case, because the source does not guarantee either.
- Store.CouponCartStore.GenerateNthOrderDiscount: `force` is an explicit parameter; the source's default of `false` is not modelled.
- Image URLs, image hints and product descriptions are not modelled. The catalog is the six ids, names and prices.
- Money is exact `real`: floating-point rounding of `price * quantity` and of `percentage / 100` is not modelled.
- `toLowerCase` folds ASCII letters only; other Unicode case mappings are not modelled.
- String lengths count `char`s, not UTF-16 code units.
- Orders are value snapshots. In the source an order shares its `CartItem` objects with the cart. Adding more of a product (store.ts:84) or taking one away (`removeFromCart`'s decrement, store.ts:104) before the cart is cleared therefore also changes the quantity recorded in an earlier order. The model does not capture that aliasing.
- Store.CouponCartStore.GetAdminStats: `itemCount` sums the quantities recorded at order time. In the source (store.ts:195) it sums the shared, live quantities, which the aliasing above can have changed since.
- There is no reset operation: the constructor builds the start-up state.
- Store.CouponCartStore.AddToCart: quantities are modelled as integers. The cart route's check lets fractional quantities such as 1.5 through, and those are not captured: such a line is decremented to 0.5 and kept by `removeFromCart`, and it contributes price times 1.5 to the subtotal.
- Store.CouponCartStore.AddToCart: the store accepts any quantity, including 0 or negative. The model keeps that. Positivity of lines is stated only for `quantity >= 1`, the cart route's own check, which is not part of this model.
