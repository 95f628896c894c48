# Endless aisle: partner order integration, modelled in Dafny

The endless-aisle sample lets a storefront sell products it does not stock. A partner
fulfils each order. The storefront is a React site with a cart, product filters, a
checkout form and an order lookup. The back end is a set of Lambda handlers behind API
Gateway:

- **Order submission.** A validated order body is queued on SQS. An order worker
  (`createOrder`) looks up the partner and fetches a bearer token from the SSM parameter
  store. It calls the partner's `inventory` endpoint. If the call yields an order id, it
  writes the order, with 8% tax, to DynamoDB.
- **Partner authorizer.** `partnerAuth` guards the partner endpoint by comparing the
  `authorizationToken` header with the stored token.
- **Partner endpoints.** A mock partner inventory answers `GET` (availability) and
  `POST` (place an order): item number below 100, a known partner, a positive quantity.
- **Order and item APIs.** `getOrder`, `updateOrder` (`PATCH` of arbitrary attributes) and
  `getItem` (a signed availability call to the partner).
- **Notifier.** A DynamoDB stream handler (`notifier`) emails the first subscriber about
  each stored order.

## The model

There is one Dafny module per core source file. Shared helpers:

- `Wrappers`: `Option`.
- `JsText`: `includes`, `toLowerCase`, `trim`, `split`/`join`, `String` of integers.
- `JsValue`: JSON/DynamoDB values, truthiness, property access with its TypeError, and
  `String(v)`/`Number(v)`.
- `JsonText`: `JSON.stringify` of a string and its inverse.
- `Http`: API Gateway events and responses.
- `Subsequence`: order-preserving selection.
- `Store`: the `Tables` class holding the partner table and the order table as maps.

Each handler is modelled in one of two ways:

- A pure function of its event and of the outcomes of the calls it makes (SSM lookup,
  partner HTTP call, DynamoDB faults, SES), which are inputs.
- A method on `Tables` that changes the order table in place (`createOrder`,
  `updateOrder`).

The React reducers are functions on the state records. `CHANGE_CART_QTY` is a loop over the
cart. The product sort is an in-place insertion sort on an array. The checkout and
order-lookup components are classes whose fields are the component's state.

Where the documented design and the code differ, the model follows the code:

- A failed partner call writes no order. The design describes a strict variant that still
  stores a `Failed` order. The code answers 400 without writing, and only ever stores the
  statuses `Completed` or `Pending` (`CreateOrder.HandleOrderMessage`).
- A successful partner answer without an order id is stored under the id `"undefined"`.
  The id is rendered by a template literal, so it is truthy (`CreateOrder.PlacedRecord`
  requires only that the rendered id is non-empty).
- The design rejects an update with no fields as an invalid argument. In the code that
  guard can never fire, because `partnerId` and `orderStatus` must already be present
  (`UpdateOrder.Validate`).
- Missing required update fields are answered with 404 "invalid request parameters".
- The partner authorizer trims the stored token but compares the header as sent
  (`PartnerAuth.PaddedHeaderDenied`).
- The order lookup page sends `partner=Partner<id>}` with a stray closing brace
  (`OrderLookup.PartnerParamNeverAName`). `getOrder` ignores the parameter, so lookups still
  work.

## Model

| member | source | states |
|---|---|---|
| ParameterStore.UsableTokens | infrastructure/lib/lambda/utils/getParameter.ts:9-27 | The sentinel checks pass whatever the lookup returns: a stored value, or the caught error object whose text is then used as the token. |
| PartnerAuth.Decide | infrastructure/lib/lambda/partnerAuth.ts:17-24 | Allow exactly when the secret is not a sentinel, the header is non-empty and the header equals the trimmed secret; otherwise Deny. |
| PartnerAuth.Authorize | infrastructure/lib/lambda/partnerAuth.ts:7-28 | 400 exactly when the header or `TOKEN_PATH` is missing; otherwise a one-statement policy for the method ARN whose effect is the decision. |
| PartnerAuth.AllowedHeaderIsTrimmed | infrastructure/lib/lambda/partnerAuth.ts:20-24 | A header that is allowed has no white space at either end. |
| PartnerAuth.PaddedHeaderDenied | infrastructure/lib/lambda/partnerAuth.ts:20-24 | A header ending in white space is always denied. |
| PartnerAuth.IdenticalPaddedSecretDenied | infrastructure/lib/lambda/partnerAuth.ts:20-24 | The header "abc " is denied against the stored secret "abc ". |
| PartnerAuth.WorkerTokenAccepted | infrastructure/lib/lambda/partnerAuth.ts:7-28 | The trimmed token the order worker sends is allowed when non-empty and rejected with 400 when empty. |
| PartnerSeed.PartnerListShape | infrastructure/lib/constant/partners.ts:5-21 | Three partners with distinct ids "1", "2", "3", named Partner1..3, with categories Footware, Apparel, Eyewear. |
| PartnerSeed.SeedRowsContents | infrastructure/lib/constructs/ddb-tables.ts:81-98 | Writing one row per partner with distinct ids gives a table whose keys are exactly the ids, each mapped to its own row. |
| PartnerSeed.SeedTableContents | infrastructure/lib/constructs/ddb-tables.ts:81-98 | The provisioned partner table has keys "1", "2", "3" with the listed names and categories and the mock endpoint as webhook. |
| Schema.ParseCategory | infrastructure/lib/lambda/utils/schema.ts:3-7 | Exactly the three category names parse, each back to its own text. |
| Schema.ParsePartner | infrastructure/lib/lambda/utils/schema.ts:9-13 | Exactly Partner1..3 parse, each back to its own text. |
| Schema.ParseSize | infrastructure/lib/lambda/utils/schema.ts:15-19 | Exactly M, S, L parse, each back to its own text. |
| Schema.ParseColor | infrastructure/lib/lambda/utils/schema.ts:21-29 | Exactly the seven colour names parse, each back to its own text. |
| Schema.ParseStatus | infrastructure/lib/lambda/utils/schema.ts:31-38 | Exactly the six status names parse, each back to its own text. |
| Schema.EnumTextsRoundTrip | infrastructure/lib/lambda/utils/schema.ts:3-38 | Every enumeration member's text parses back to that member. |
| Schema.OrderItem | infrastructure/lib/lambda/utils/schema.ts:79-97 | The stored document of an order carries its id under `orderId`. |
| Schema.RequiredAttributeKeys | infrastructure/lib/lambda/utils/schema.ts:79-97 | The required attributes of an order are exactly the fixed key set, which leaves out the three optional attributes. |
| Schema.OrderItemShape | infrastructure/lib/lambda/utils/schema.ts:79-97 | Every required field is an attribute, and each optional field is an attribute exactly when it is set. |
| Schema.OrderItemValues | infrastructure/lib/lambda/utils/schema.ts:79-97 | The stored document holds the order's id, partner, status description and subscribers as the notifier reads them. |
| ApiSchema.PartnerProperty | infrastructure/lib/schema/apischema.ts:15 | A string passes the partner property exactly when it names one of the three partners. |
| ApiSchema.PartnerPropertyAccepts | infrastructure/lib/schema/apischema.ts:46 | Every partner name passes, and only strings pass. |
| ApiSchema.EmptyOrderPasses | infrastructure/lib/schema/apischema.ts:3-30 | The order submission schema requires nothing: the empty object passes. |
| ApiSchema.RequestedItemIdBound | infrastructure/lib/schema/apischema.ts:3-30 | A requested item holding only an item id passes exactly when the id has at most 64 characters. |
| ApiSchema.PartnerOrderRequired | infrastructure/lib/schema/apischema.ts:39-49 | A valid partner order has a string item id of at most 64 characters, a numeric quantity and a valid partner name; a sku, when given, is a string of at most 64 characters. |
| ApiSchema.ItemLookupRequired | infrastructure/lib/schema/apischema.ts:61-67 | A valid item lookup has a string `id`. |
| ApiSchema.UpdateStatusValues | infrastructure/lib/schema/apischema.ts:51-59 | A valid update has id, partner id of at most 64 characters and a status among the four allowed. Of the order statuses only Pending and Failed are among them. |
| Inventory.PostDecision | infrastructure/lib/lambda/inventory.ts:73-111 | 404 without item or partner; 200 with the placement body exactly when the policy accepts; otherwise the failure answer. |
| Inventory.GetDecision | infrastructure/lib/lambda/inventory.ts:113-146 | 404 without item, partner or quantity; "available" exactly when the policy accepts; otherwise "Not Found". |
| Inventory.Handle | infrastructure/lib/lambda/inventory.ts:13-70 | Missing event gives 404 "Invlide request"; other methods give 405; GET without a query and POST without a body give 404; the status is always 200, 404 or 405. |
| Inventory.EmptyIsZero | infrastructure/lib/lambda/inventory.ts:85-99 | `Number("")` is 0, so an empty quantity fails the positive-quantity rule. |
| Inventory.GetPostAgree | infrastructure/lib/lambda/inventory.ts:73-146 | For the same parameters GET answers "available" exactly when POST places an order. |
| Inventory.WellFormedPolicy | infrastructure/lib/lambda/inventory.ts:85-99 | For integer item and quantity texts and a partner name, the policy accepts exactly when item < 100 and quantity > 0. |
| Inventory.WellFormedGet | infrastructure/lib/lambda/inventory.ts:113-146 | A well-formed GET answers "available" or "Not Found" by that rule alone. |
| CreateOrder.OrderRecord | infrastructure/lib/lambda/createOrder.ts:138-161 | The stored order has the partner's order id, subtotal = price * 1.08 with sales tax "8%", status Completed exactly for a 200 placement, and the customer as its only subscriber. |
| CreateOrder.PlacedRecord | infrastructure/lib/lambda/createOrder.ts:99-161 | A placement whose rendered order id is non-empty builds the promised order for the record. |
| CreateOrder.PlaceOrder | infrastructure/lib/lambda/createOrder.ts:99-174 | The order is written exactly when the call succeeded with an order id and the put did not fail. The table changes only at that id, keeps the store invariant, and the answer is 200. A failed call answers 400 and writes nothing. |
| CreateOrder.HandleOrderMessage | infrastructure/lib/lambda/createOrder.ts:22-175 | No records give 400; an empty batch throws; an unknown partner, a missing token path or a sentinel token give 400 without calling the partner. Otherwise one request goes to `webhook + "inventory"` with the trimmed token, and the order is written as in PlaceOrder. |
| GetOrder.HandleGetOrder | infrastructure/lib/lambda/getOrder.ts:10-96 | Missing event gives 404; other methods give 405; no query or no id give 404; otherwise the stored order, or "Order Data not found" with 200. |
| GetOrder.ReadAfterWrite | infrastructure/lib/lambda/getOrder.ts:49-69 | Once the table holds an order under an id, reading that id returns it, whatever the query says. |
| GetOrder.PlacedOrderReadBack | infrastructure/lib/lambda/getOrder.ts:49-69 | After the order worker stores an order, a read of its id returns the stored document, whose `orderId` is that id. |
| UpdateOrder.Validate | infrastructure/lib/lambda/updateOrder.ts:10-54 | 404 for a missing event, path id or body, and for missing partner id or status; 405 for other methods. An accepted body has at least two properties, so the "no arguments" branch cannot be reached. |
| UpdateOrder.BuildUpdate | infrastructure/lib/lambda/updateOrder.ts:56-71 | The loop builds `set k = :k, …` over the body's keys in order, with each value under its placeholder. |
| UpdateOrder.FieldsMapDistinct | infrastructure/lib/lambda/updateOrder.ts:56-71 | With distinct names every property is set under its own name and nothing else is. |
| UpdateOrder.LookupAgreesWithFieldsMap | infrastructure/lib/lambda/updateOrder.ts:35-51 | For a parsed body (distinct property names) the value read for the validation and the value the update sets agree for every name. |
| UpdateOrder.ParseBuilt | infrastructure/lib/lambda/updateOrder.ts:56-71 | The built expression reads back clause by clause as the names and placeholders written. |
| UpdateOrder.BuiltUpdateRoundTrip | infrastructure/lib/lambda/updateOrder.ts:56-77 | For distinct, assignable names the table performs exactly the body's assignments, in order. |
| UpdateOrder.BuiltUpdateRejected | infrastructure/lib/lambda/updateOrder.ts:56-77 | For simple distinct names the update is rejected exactly when some name is reserved or is the key. |
| UpdateOrder.HandleUpdate | infrastructure/lib/lambda/updateOrder.ts:8-116 | A rejected request leaves the table unchanged and returns the validation answer; an accepted one runs ApplyUpdate. |
| UpdateOrder.ApplyUpdate | infrastructure/lib/lambda/updateOrder.ts:56-102 | An accepted update merges the body into the order, creating it if absent, keeps every order under its own key and answers 200 with the new item. A rejected or failed update throws and leaves the table unchanged. |
| UpdateOrder.AssignedNotKey | infrastructure/lib/lambda/updateOrder.ts:73-77 | An accepted update never assigns the key attribute. |
| UpdateOrder.UpdateStoresBody | infrastructure/lib/lambda/updateOrder.ts:56-102 | After an accepted update each property is stored verbatim and every other attribute keeps its value. |
| GetItem.ItemResponse | infrastructure/lib/lambda/getItem.ts:101-124 | The answer is 200, or 400 "Item Not found" exactly when the partner answered with nothing. A failed call falls back to "available". |
| GetItem.HandleGetItem | infrastructure/lib/lambda/getItem.ts:21-140 | Missing event gives 404; non-GET gives 405; neither query nor path gives 404. With all parameters present the partner is looked up and the signed inventory URL is called. |
| GetItem.PartnerErrorsAnswered | infrastructure/lib/lambda/getItem.ts:101-124 | Once the request is sent the answer is never an error status other than 400 "Item Not found". |
| GetItem.SigningHost | infrastructure/lib/lambda/getItem.ts:80-82 | The third `/`-separated segment of `scheme//host/rest` is the host. |
| GetItem.QueryParameters | infrastructure/lib/lambda/getItem.ts:99 | The URL's query string splits back into its four parameters in order. |
| Notifier.EmailTextMentions | infrastructure/lib/lambda/notifier.ts:68-88 | The email text names the partner, the email, the order id and the status. |
| Notifier.NotifyFields | infrastructure/lib/lambda/notifier.ts:27-49 | An email is sent exactly when all four fields are truthy; otherwise the caught error is returned as JSON. |
| Notifier.HandleStream | infrastructure/lib/lambda/notifier.ts:12-59 | No records give 400; an empty batch crashes; otherwise the first record's new image is handled as in NotifyFields. |
| Notifier.NotifyStoredOrder | infrastructure/lib/lambda/notifier.ts:12-97 | A stored order with a status description and a subscriber email is announced from and to the configured address, with partner and order id in the subject. |
| Notifier.StoredSubscriberEmail | infrastructure/lib/lambda/notifier.ts:27-41 | The notifier reads the first subscriber's email of a stored order. |
| Reducers.ChangeQty | website/src/context/Reducers.js:10-16 | The loop computes the CHANGE_CART_QTY filter. |
| Reducers.AddToCartAppends | website/src/context/Reducers.js:3-4 | ADD_TO_CART appends the product with quantity 1 without merging, and nothing else changes. |
| Reducers.RemoveFromCartKeepsOthers | website/src/context/Reducers.js:5-9 | REMOVE_FROM_CART keeps exactly the other items' lines, in order, and removes all lines for the item. |
| Reducers.ChangeQtyKeepsLines | website/src/context/Reducers.js:10-16 | With a truthy quantity every line stays in place, and the matching lines take the new quantity. |
| Reducers.ChangeQtyToFalsyRemoves | website/src/context/Reducers.js:10-16 | With a falsy quantity, CHANGE_CART_QTY removes the item's lines exactly as REMOVE_FROM_CART does. |
| Reducers.CustomerFieldsIsolated | website/src/context/Reducers.js:17-46 | Each customer-detail action changes its one field only. |
| Reducers.ClearCartResets | website/src/context/Reducers.js:47-57 | CLEAR_CART gives the initial state over the same catalogue, with an empty cart. |
| Reducers.UnknownActionsIgnored | website/src/context/Reducers.js:58-59 | Unknown actions leave the cart state and the product state unchanged. |
| Reducers.TogglesAreInvolutions | website/src/context/Reducers.js:67-70 | The stock and delivery toggles negate their flag, so applying one twice restores the state. |
| Reducers.ClearFiltersDropsFields | website/src/context/Reducers.js:81-82 | CLEAR_FILTERS leaves only the three flags at their defaults, which differs from the initial state. |
| Products.SortByPrice | website/src/components/Products.js:13-17 | The array ends sorted by price in the chosen direction and is a permutation of what it held. |
| Products.SortedPrices | website/src/components/Products.js:13-17 | Sorted means ascending prices for "lowToHigh" and descending otherwise. |
| Products.TransformProducts | website/src/components/Products.js:10-48 | The list shown is the filter pipeline over the catalogue. The array is sorted and permuted when a sort is set, and untouched otherwise. |
| Products.TransformedProducts | website/src/components/Products.js:19-47 | The list shown is a subsequence of the catalogue, and a product is in it exactly when it passes every active filter. |
| Products.SelectAllKeeps | website/src/components/Products.js:19-45 | Chained filters keep exactly the products passing all of them, in order. |
| Products.NeutralFiltersShowAll | website/src/components/Products.js:19-45 | With no filter active the catalogue is shown as it stands. |
| Products.NameQueryIsCaseSensitive | website/src/components/Products.js:36-40 | The name query is not lower-cased: "Shoe" hides a product named "Shoe", and "shoe" shows it. |
| Products.UpperCaseNameQueryHidesAll | website/src/components/Products.js:36-40 | Any name query holding an upper-case letter hides every product, since only the name is lower-cased. |
| CartSummary.TotalAppend | website/src/components/Cart.js:19-23 | The total of a concatenated cart is the sum of the totals. |
| CartSummary.TotalIsPriceSum | website/src/components/Cart.js:19-23 | When every quantity converts, the total is the sum of price times quantity. |
| CartSummary.TotalNaN | website/src/components/Cart.js:19-23 | The total is NaN exactly when some quantity does not convert to a number. |
| CartSummary.FinalPayable | website/src/components/Cart.js:14-15 | The payable amount is the total times 1.08, and NaN exactly when the total is. |
| CartSummary.ItemCountShown | website/src/components/Cart.js:84 | The heading's number reads back as the number of cart lines. |
| CartSummary.CartActionsOnTotal | website/src/components/Cart.js:19-23 | Adding a product adds its price to the total and enables checkout; clearing zeroes it and disables checkout. |
| CartSummary.SelectedQuantitiesCount | website/src/components/Cart.js:19-23 | Quantities chosen through the select still total price times quantity. |
| Checkout.Validate | website/src/components/Customer.js:28-52 | The errors are one per refused field, and the details pass exactly when they are complete. |
| Checkout.NoErrorsIffComplete | website/src/components/Customer.js:28-52 | There are no errors exactly when every field is filled and the postal code is five digits. |
| Checkout.ErrorsPerField | website/src/components/Customer.js:28-52 | Each field gets the missing message when empty. A filled-in postal code that is not five digits gets the format message. |
| Checkout.ClearedDetailsRefused | website/src/components/Customer.js:54-68 | After the cart is cleared every field is refused again. |
| Checkout.EmailTypingIsolated | website/src/components/Customer.js:138-220 | Typing the email changes no other field's error. |
| Checkout.AddressJsonFields | website/src/components/Customer.js:85 | The address text contains each field's escaped text, and that text reads back unchanged. |
| Checkout.Bodies | website/src/components/Customer.js:70-108 | One body per cart line, in cart order. |
| Checkout.RequestBodyFields | website/src/components/Customer.js:73-89 | Each body carries the line's item data and quantity, the contact "test", and the customer's email and address. |
| Checkout.CustomerPasses | website/src/components/Customer.js:73-89 | The customer part of every body passes its schema. |
| Checkout.RequestedItemPasses | website/src/components/Customer.js:73-89 | The requested item passes exactly when its id has at most 64 characters, the quantity is a number and the partner is valid. |
| Checkout.RequestBodyPasses | website/src/components/Customer.js:73-89 | A body passes the submission schema exactly when its requested item does. |
| Checkout.ChangedQuantityRefused | website/src/components/Customer.js:73-89 | A line whose quantity was changed through the select holds text, so its body is refused. |
| Checkout.CheckoutPage.CartChanged | website/src/components/Customer.js:16-22 | A non-empty cart enables the button, and nothing disables it again. |
| Checkout.CheckoutPage.SubmitOrder | website/src/components/Customer.js:70-108 | The posted bodies grow by one body per cart line, in order. |
| Checkout.CheckoutPage.HandleSubmit | website/src/components/Customer.js:54-68 | The errors become the validator's. Complete details post the cart and clear the cart, the details and the filters; otherwise nothing is posted. |
| OrderLookup.Validate | website/src/components/Order.js:20-30 | One error per empty field, and the check passes exactly when both fields are filled. |
| OrderLookup.LookupPathParts | website/src/components/Order.js:39 | The request path splits into the order path and `partner=Partner<id>}`. |
| OrderLookup.PartnerParamNeverAName | website/src/components/Order.js:39 | Because of the closing brace the partner parameter never names a partner. |
| OrderLookup.PlaceholderIsNotEmpty | website/src/components/Order.js:77-80 | The placeholder option's value is non-empty, so it passes validation. |
| OrderLookup.Route | website/src/components/Order.js:40-46 | An answer with a truthy `message.orderId` shows the order and any other answer shows the message. An answer that cannot be read leaves the page unchanged. |
| OrderLookup.StoredOrderShown | website/src/components/Order.js:33-48 | Looking up a stored order shows that order. |
| OrderLookup.UnknownOrderMessage | website/src/components/Order.js:33-48 | Looking up an unknown order shows "Order Data not found". |
| OrderLookup.AnswerWithoutMessageIgnored | website/src/components/Order.js:40-46 | An answer without `message` leaves the page unchanged. |
| OrderLookup.OrderPage.SetOrderId | website/src/components/Order.js:68-69 | Only the order id changes. |
| OrderLookup.OrderPage.SetPartnerId | website/src/components/Order.js:74-75 | Only the partner id changes. |
| OrderLookup.OrderPage.HandleSubmit | website/src/components/Order.js:20-48 | The order and message are cleared first. The errors are exactly one per empty field, with its "Please provide …" message. A request is made only when both fields are filled, and then the answer is routed. |
| JsText.Trim | infrastructure/lib/lambda/partnerAuth.ts:20 | `trim()` returns a slice that neither starts nor ends with white space, and only white space was cut. |
| JsText.SplitJoin | infrastructure/lib/lambda/getItem.ts:80-82 | Splitting undoes joining when no part holds the separator. |
| JsonText.EscapeRoundTrip | website/src/components/Customer.js:85 | A string's JSON escape reads back as the string. |

## Left out

- AWS calls are inputs or are left out: SSM, DynamoDB faults, SQS delivery, SES, the aws4 signature and axios. SQS redelivery, dead-lettering and DynamoDB stream mechanics are left out.
- CreateOrder.HandleOrderMessage: the queued body is a typed record (`requestedItem` and `customer` always present, `size` one of M/S/L, `quantity` an integer, `partner` a partner name), although the order submission schema requires nothing and admits any string size and any number quantity. So the model does not capture: a body without `requestedItem` throwing a TypeError before the partner lookup (createOrder.ts:44); a body without `customer` throwing while the order record is built (createOrder.ts:158), after the partner has already placed the order, so that order is never stored; and an out-of-range size or a fractional quantity being stored as sent.
- `randomUUID` and `Date.now` are inputs to the handlers that use them.
- `JSON.parse` of request bodies is left out: bodies arrive already parsed, as ordered property lists. `JSON.stringify` is modelled only for strings (the checkout address text). Response bodies are kept as values.
- URL encoding and the signature headers of the item lookup are left out. The model keeps only the URL text and the host it signs for.
- Floating point: prices and totals are exact reals, so rounding, `toFixed` and large-number behaviour are not modelled. `Number(v)` covers decimal literals and white space only (no exponents, hex or Infinity). NaN is `None`.
- `toLowerCase` folds ASCII letters only; Unicode case mapping is left out.
- The DynamoDB SET evaluation (`UpdateOrder.Assignments`) is this model's own statement of the table's rules. The reserved-word list is a parameter.
- `CartSummary`: the total is undefined until the first effect runs. The model computes it directly from the cart.
- `Products.SortByPrice`: does not state the stability of `Array.prototype.sort`. It is an insertion sort proved sorted and a permutation.
- `Reducers.ChangeQty`: the source assigns the quantity on the old state's cart objects (aliasing). The model builds new lines and does not capture that mutation.
- `Checkout.CheckoutPage.SubmitOrder`: the fetch responses are ignored by the page and not modelled. An Amplify rejection is modelled as a `None` response in the order lookup.
- The checkout errors are keyed by a field datatype rather than the property names; `Checkout.Name` gives each field's key.
- `Notifier.HandleStream`: whether the email was delivered is not modelled, because `sendEmail` swallows delivery errors.
- React rendering, routing, Cognito sign-in (`cognito.ts`), the CDK constructs and API wiring, and the pages `Partners.js`, `Search.js`, `Orders.js` and `Home.js` are not part of this model.
