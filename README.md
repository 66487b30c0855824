# store-builder: checkout, order API and product editor

This project models the core of store-builder, a multi-store web shop. A
customer fills a cart on a store's page and checks out. The cart page posts
an order request to `/api/orders` and then redirects to WhatsApp with a
message. The order route validates the request and, in one database
transaction, does four things: it checks and decrements the stock of every
item, finds or creates the customer by phone number, creates the order and
queues a confirmation e-mail. The admin side has a product editor, a hook
that sends an edited product as a multipart PATCH, and an order table with
per-order totals.

Modules, one per source file (two for the route):

- `Validator` (`validator.dfy`): the request schemas of `src/app/api/validator.ts`,
  applied to a JSON value. There are partner encoders for the order request,
  and the lemmas prove round trips for them.
- `FormSchema` (`form_schema.dfy`): the client-side form schemas of
  `src/utils/schema.ts`. Each form gets its list of issues, and an iff states
  exactly when that list is empty.
- `OrderRoute` (`order_route.dfy`): `src/app/api/orders/route.ts`.
  - The database is the class `Database`, whose methods change its tables.
  - The answer of a POST and the tables after it are stated by the function
    `Outcome` of the tables before the call.
  - The lemmas prove these properties of `Outcome`:
    - a request that does not commit leaves the tables unchanged;
    - a second e-mail that is refused after the commit answers 500 even
      though the order is stored;
    - customers are reused by phone number;
    - the table invariant is preserved.
- `OrderTable` (`order_table.dfy`): the aggregate columns of
  `src/app/dashboard/orders/page.tsx`. Each column is a left fold, proved
  equal to a reference sum.
- `CartPage` (`cart_page.dfy`): the checkout of `src/app/cart/page.tsx`.
  It covers the input state, the rows shown, the request posted and the
  WhatsApp text. It also covers what `handleOrder` does with each answer of
  the route, and the route's answers are connected to the page's toasts by
  lemmas.
- `ProductInput` (`product_input.dfy`): the editor logic that
  `src/components/ProductModal.tsx` and `src/components/ProductForm.tsx`
  both contain. The two differ in where the category list comes from:
  `ProductModal` takes it from its props, `ProductForm` fetches it with
  `useGetCateogries`. `CategoryOptions` takes the list as a parameter, so
  it models both. Only `ProductModal` has the Save button that
  `SaveDisabled` models.
  - `unFormatPrice` has a proved round trip with the displayed price text.
  - The change handlers are functions from input to input.
- `UpdateProduct` (`update_product.dfy`): `src/app/admin/products/useUpdateProduct.ts`.
  It covers the edit form, the multipart entries and the `JSON.stringify`
  of the category ids. The stringify has a decoder it round-trips with.
- `Text` and `Wrappers`: JavaScript string behaviour the core relies on
  (`includes`, `parseInt`, number-to-text), and `Option`/`Result`.

Conventions:

- The e-mail format check of zod (`z.string().email()`) is the parameter
  `isEmail`.
- `toIDRFormat`, `encodeURI` and `location.origin` are the parameters
  `fmt`, `encode` and `origin`.
- The answer to the PATCH, and whether the posted order succeeded, are
  parameters of the page-side methods.
- Whether each of the route's two `inngest.send` calls is accepted or
  throws is the parameter `mail` of type `Mail`. A request body that is not
  JSON is `None`; `request.json()` then throws outside the handler's `try`,
  and the answer is the framework's 500.

## Model

The `ProductInput` logic appears twice in the source, once in each editor
file. `src/components/ProductModal.tsx` lines 46-100 match
`src/components/ProductForm.tsx` lines 54-108, eight lines apart. The
category options differ: `ProductModal.tsx` line 101 filters
`props.categories`, `ProductForm.tsx` line 109 filters the list fetched by
`useGetCateogries`. Each shared member has one row, citing one of the two
files.

Some rows name a function or predicate without a contract of its own.
Their rows say which lemma states what they compute.

| member | source | states |
|---|---|---|
| Validator.ParseUser | src/app/api/validator.ts:28-37 | no contract of its own; `UserRoundTrip` proves it accepts an encoded user back unchanged |
| Validator.ParseStore | src/app/api/validator.ts:78-85 | no contract of its own; `StoreRoundTrip` proves it accepts an encoded store back unchanged |
| Validator.ParseItem | src/app/api/validator.ts:72-98 | no contract of its own; `ItemRoundTrip` proves it accepts an encoded cart item back unchanged |
| Validator.ParseOrderer | src/app/api/validator.ts:65-70 | no contract of its own; `OrdererRoundTrip` and `MissingOrdererFieldRejected` state what it accepts |
| Validator.UserRoundTrip | src/app/api/validator.ts:28-37 | a user value whose e-mail passes the format check is accepted back unchanged from its JSON |
| Validator.StoreRoundTrip | src/app/api/validator.ts:78-85 | an item's store, with its nested user, survives encoding and parsing |
| Validator.CategoriesRoundTrip | src/app/api/validator.ts:88-96 | every category list survives encoding and parsing, element by element |
| Validator.ItemRoundTrip | src/app/api/validator.ts:71-99 | a cart item with all its fields, store and categories is accepted back unchanged |
| Validator.ItemsRoundTrip | src/app/api/validator.ts:71-99 | the item array round-trips whenever every item's store user has a valid e-mail |
| Validator.OrdererRoundTrip | src/app/api/validator.ts:65-70 | the orderer's four string fields round-trip |
| Validator.OrderRequestRoundTrip | src/app/api/validator.ts:63-101 | a whole order request round-trips through the order schema |
| Validator.ParseOrderRequest | src/app/api/validator.ts:63-101 | an accepted body is an object whose orderer fields, total price and item count are exactly what the result carries |
| Validator.ParsedRequestOk | src/app/api/validator.ts:78-85 | every accepted request's items have store users with valid e-mails, so the accepted requests are exactly the round-trip domain |
| Validator.MissingOrdererFieldRejected | src/app/api/validator.ts:65-70 | an orderer missing any of name, email, phoneNumber or address makes the whole body rejected |
| Validator.StoreNameOptional | src/app/api/validator.ts:64 | removing `storeName` keeps the body accepted, with the store name absent and all else equal |
| Validator.UnknownKeysIgnored | src/app/api/validator.ts:63-101 | adding a key outside the schema does not change the verdict or the result |
| Validator.ParseStatusUpdate | src/app/api/validator.ts:103-105 | a status update is accepted exactly when `status` is a string, and carries that string |
| Validator.ParseProduct | src/app/api/validator.ts:51-60 | an accepted product body has a numeric `priceBase` equal to the result's, and its image is passed through as given |
| Validator.ProductStockIsFree | src/app/api/validator.ts:55 | stock may be absent, null or any number, and swapping one for another changes only the result's stock |
| Validator.ProductNeedsNumericPriceBase | src/app/api/validator.ts:54 | a product body without a numeric `priceBase` is rejected |
| FormSchema.OrderFormIssues | src/utils/schema.ts:4-20 | no issue exactly when name has 4..50 chars, phone has 8..14 chars starting with `+62` or `08`, and the e-mail is valid; issues name only those three fields |
| FormSchema.PhonePrefixMessage | src/utils/schema.ts:15-17 | a phone of valid length without the prefix gets exactly the prefix message |
| FormSchema.ShortPhoneGetsBothMessages | src/utils/schema.ts:9-17 | a 3-digit phone gets both the length and the prefix messages, in that order |
| FormSchema.AddressIsOptional | src/utils/schema.ts:19 | the address never changes the issues |
| FormSchema.ProductFormIssues | src/utils/schema.ts:22-36 | no issue exactly when all required fields are present, a given stock is non-negative and at least one category is chosen |
| FormSchema.NegativeStockMessage | src/utils/schema.ts:26-30 | a negative stock yields the stock message |
| FormSchema.UserFormIssues | src/utils/schema.ts:38-47 | no issue exactly when name, a valid e-mail, a password of at least 6 chars and a role are given |
| OrderRoute.ItemError | src/app/api/orders/route.ts:21-27 | an item fails exactly when its product is missing or has less stock than the quantity; a missing product gives "Product does not exist", a short one the product's out-of-stock text |
| OrderRoute.StockError | src/app/api/orders/route.ts:12-38 | an error of the stock step is the error of some item of the cart |
| OrderRoute.StockWrites | src/app/api/orders/route.ts:29-36 | the writes keep the product table's set of ids |
| OrderRoute.StockErrorNone | src/app/api/orders/route.ts:12-38 | the stock step fails exactly when some item is missing or short of stock |
| OrderRoute.StockErrorFirst | src/app/api/orders/route.ts:12-38 | the error reported is that of the first failing item in cart order |
| OrderRoute.StockWritesKeep | src/app/api/orders/route.ts:29-36 | the stock writes keep the product set and change nothing but stock |
| OrderRoute.StockWritesUntouched | src/app/api/orders/route.ts:29-36 | a product not in the cart keeps its row |
| OrderRoute.StockWritesLast | src/app/api/orders/route.ts:34 | a product's new stock is the last cart line's client-side stock minus its quantity |
| OrderRoute.StockDecrementsWhenFresh | src/app/api/orders/route.ts:34 | with distinct items whose client stock matches the table, each stock drops by its quantity and stays non-negative |
| OrderRoute.StaleStockGoesNegative | src/app/api/orders/route.ts:25-34 | the check reads the table but the write uses the client's stock, so a stale cart can drive stock to -2 |
| OrderRoute.FindStore | src/app/api/orders/route.ts:50-55 | a found store is listed, not deleted and has the requested name; none found means no such store exists |
| OrderRoute.CustomerFor | src/app/api/orders/route.ts:61-76 | with customers keyed by phone, the customer has the orderer's phone; with ids below the generator, its id is new exactly when the phone is unknown |
| OrderRoute.TransactionOutcome | src/app/api/orders/route.ts:57-125 | a failed transaction leaves the tables as they were; it commits exactly when every item passes, the store exists and the first send is accepted; a commit appends one order numbered by the generator |
| OrderRoute.Outcome | src/app/api/orders/route.ts:40-150 | the status is 200, 400 or 500; 400 exactly when the schema rejects the body, and then the tables are unchanged |
| OrderRoute.OutcomeStatus | src/app/api/orders/route.ts:40-150 | the status is 200, 400 or 500; 200 exactly when the request commits and the second e-mail event is accepted; the tables change exactly when the transaction commits |
| OrderRoute.InvalidBodyRejected | src/app/api/orders/route.ts:40-45 | a body the schema rejects gets 400 and changes nothing |
| OrderRoute.FailingItemAborts | src/app/api/orders/route.ts:21-27 | the first failing item's message is the 500 answer, and every table is rolled back |
| OrderRoute.MissingStoreAborts | src/app/api/orders/route.ts:99-103 | with no matching store the order cannot connect, so the answer is 500 and the stock and customer writes are undone |
| OrderRoute.FirstSendAborts | src/app/api/orders/route.ts:107-125 | a refused first e-mail event aborts the transaction: the answer is 500 with the send's error and every table is as before |
| OrderRoute.SecondSendFailsAfterCommit | src/app/api/orders/route.ts:127-149 | a refused second e-mail event answers 500 with its error, yet the order, the stock writes and the customer stay stored and the first e-mail stays queued |
| OrderRoute.SuccessfulOrder | src/app/api/orders/route.ts:57-144 | on success: a pending order with the request's total, store, customer and lines is appended; stock is written; both e-mails go to the orderer |
| OrderRoute.KnownPhoneReusesCustomer | src/app/api/orders/route.ts:61-65 | on a commit, a known phone number reuses that customer for the new order and creates none |
| OrderRoute.NewPhoneCreatesCustomer | src/app/api/orders/route.ts:67-76 | on a commit, an unknown phone number creates one customer from the orderer's fields with the next id |
| OrderRoute.RepeatPhoneSharesCustomer | src/app/api/orders/route.ts:61-76 | two successful orders with the same phone share one customer |
| OrderRoute.CustomersStayValid | src/app/api/orders/route.ts:61-76 | finding or creating a customer keeps customers keyed by phone with distinct ids below the next id |
| OrderRoute.NewLinesExist | src/app/api/orders/route.ts:86-96 | after a passed stock check every order line names an existing product |
| OrderRoute.LinkedStaysLinked | src/app/api/orders/route.ts:78-105 | an order whose customer, store and products exist stays so when tables only grow |
| OrderRoute.TransactionKeepsValid | src/app/api/orders/route.ts:57-125 | a committed transaction keeps every order linked and the customer keys consistent |
| OrderRoute.CommitWritesTransaction | src/app/api/orders/route.ts:57-139 | a committed request leaves the tables the transaction wrote, apart from the queued e-mails |
| OrderRoute.TablesValid | src/app/api/orders/route.ts:61-105 | no contract of its own: customers are keyed by phone with distinct ids below the generator, and orders are linked and numbered in increasing order; `OutcomeKeepsValid` proves every POST keeps it |
| OrderRoute.OutcomeKeepsValid | src/app/api/orders/route.ts:40-150 | every POST, whatever its answer, preserves the table invariant |
| OrderRoute.ActiveOrders | src/app/api/orders/route.ts:153-171 | GET lists exactly the orders whose store is not deleted |
| OrderRoute.Database.CheckStock | src/app/api/orders/route.ts:15-27 | the item-by-item checks return the stock step's error |
| OrderRoute.Database.WriteStock | src/app/api/orders/route.ts:29-36 | the item-by-item writes leave the product table equal to the stock writes |
| OrderRoute.Database.FindOrCreateCustomer | src/app/api/orders/route.ts:61-76 | returns the known customer or inserts a new one with the next id |
| OrderRoute.Database.RollBack | src/app/api/orders/route.ts:57-125 | restores every table to the saved snapshot |
| OrderRoute.Database.Transaction | src/app/api/orders/route.ts:57-125 | its result and new tables are the transaction outcome of the old tables, given whether the first send is accepted; a refused send rolls back every table |
| OrderRoute.Database.Post | src/app/api/orders/route.ts:40-150 | a body that is not JSON gets the framework's 500 and changes nothing; otherwise the answer and new tables are the `Outcome` of the old tables and the two sends' outcomes, and the invariant holds |
| OrderRoute.Database.Get | src/app/api/orders/route.ts:153-171 | returns exactly the orders of active stores |
| OrderTable.FoldQuantityIsSum | src/app/dashboard/orders/page.tsx:36-38 | the quantity fold adds the sum of quantities to its seed |
| OrderTable.FoldPriceIsSum | src/app/dashboard/orders/page.tsx:43-45 | the price fold adds the sum of quantity times price to its seed |
| OrderTable.TotalQuantityIsSum | src/app/dashboard/orders/page.tsx:35-39 | the total quantity column is the sum of quantities, 0 for no lines |
| OrderTable.RawTotalPriceIsSum | src/app/dashboard/orders/page.tsx:41-47 | the price column formats the sum of quantity times price, 0 for no lines |
| OrderTable.TotalsAdditive | src/app/dashboard/orders/page.tsx:35-47 | both columns add up over concatenated line lists |
| OrderTable.TotalsNonNegative | src/app/dashboard/orders/page.tsx:35-47 | without negative quantities or prices neither column is negative |
| OrderTable.PriceColumnIgnoresTotal | src/app/dashboard/orders/page.tsx:95 | the price column is recomputed from current product prices, not the stored order total |
| CartPage.SubmitDisabled | src/app/cart/page.tsx:57-58 | no contract of its own: submit is disabled while name, phone or address is empty or the cart is empty; `EnabledSubmitCanBeRefused` relates it to the route |
| CartPage.DisplayedRows | src/app/cart/page.tsx:127-128 | the rows shown are exactly the cart items with positive quantity |
| CartPage.DisplayedRowsConcat | src/app/cart/page.tsx:127-128 | filtering distributes over concatenation, so the order of rows is kept |
| CartPage.OrderRequest | src/app/cart/page.tsx:84-90 | the request has exactly the keys `storeName`, `items`, `totalPrice` and `orderer`, and the orderer has exactly the input's keys |
| CartPage.RequestAcceptance | src/app/cart/page.tsx:84-93 | the posted request is accepted with exactly the page's store, items, total and input when the input has all four orderer keys, and rejected otherwise |
| CartPage.EnabledSubmitCanBeRefused | src/app/cart/page.tsx:57-58 | a filled-in form enables submit, yet the request it posts is refused because the input has no `email` |
| CartPage.WaEntriesNumbered | src/app/cart/page.tsx:63-70 | the k-th entry of the WhatsApp list starts on a new line, reads as number k+1 and shows that line's total |
| CartPage.WaText | src/app/cart/page.tsx:60-78 | the message starts with the greeting and the numbered entries and ends with `Via` and the page's origin; `WaEntriesNumbered` states the entries |
| CartPage.WaUrl | src/app/cart/page.tsx:80 | the link is the shop's WhatsApp prefix followed by the encoded message and nothing else |
| CartPage.Accepted | src/app/cart/page.tsx:95-99 | no contract of its own: axios resolves, and the order counts as placed, exactly for a 2xx answer; `CheckoutWithoutEmail` and `CommittedOrderShownAsFailed` use it |
| CartPage.ErrorMessage | src/app/cart/page.tsx:101-105 | the toast shows the server's message when "out of stock" occurs in it at some index, the generic text otherwise |
| CartPage.OutOfStockShown | src/app/cart/page.tsx:103-105 | the route's out-of-stock message reaches the customer verbatim |
| CartPage.ProductMissingHidden | src/app/cart/page.tsx:101-105 | the route's missing-product message is replaced by the generic text |
| CartPage.ToastsFor | src/app/cart/page.tsx:100-114 | at most one toast, and none for an accepted order |
| CartPage.CheckoutWithoutEmail | src/app/cart/page.tsx:84-93 | an input without `email` gets 400 from the route, whatever the sends would do, changes no table and shows no toast |
| CartPage.CommittedOrderShownAsFailed | src/app/cart/page.tsx:95-114 | an order the route stored but whose second e-mail was refused is shown as failed, with the error toast, and the cart is kept |
| CartPage.CheckoutOutOfStock | src/app/cart/page.tsx:103-113 | a 500 out-of-stock answer shows exactly that message |
| CartPage.Checkout.constructor | src/app/cart/page.tsx:42-46 | the input starts as empty name, phone and address; nothing sent or shown |
| CartPage.Checkout.HandleChange | src/app/cart/page.tsx:48-55 | sets the changed key to the new text and keeps the other keys |
| CartPage.Checkout.HandleOrder | src/app/cart/page.tsx:95-115 | posts the request; if accepted, clears the cart and goes to the WhatsApp URL; otherwise keeps the cart and adds the error toast |
| ProductInput.StripKeepsDigits | src/components/ProductModal.tsx:47 | removing `Rp` and dots keeps every digit, in order |
| ProductInput.StripIsSinglePass | src/components/ProductModal.tsx:47 | a global replace does not re-scan, so `RRpp` becomes `Rp` |
| ProductInput.UnFormatPrice | src/components/ProductModal.tsx:46-48 | no contract of its own: `parseInt` of the text with `Rp` and dots removed and the first comma made a point; `UnFormatPriceRoundTrip` and `UnFormatExample` state what it yields |
| ProductInput.UnFormatPriceRoundTrip | src/components/ProductForm.tsx:54-56 | un-formatting the displayed text `Rp.` + dot-grouped digits + optional `,fraction` gives back the integer part |
| ProductInput.UnFormatExample | src/components/ProductModal.tsx:46-48 | `Rp.1.234,5` un-formats to 1234 |
| ProductInput.RequestOf | src/components/ProductForm.tsx:58-62 | the request carries the input's fields, the un-formatted price and the chosen categories' ids in order |
| ProductInput.Changed | src/components/ProductModal.tsx:68-74 | a text change sets the named field; choosing a store also clears the categories |
| ProductInput.CategoriesChanged | src/components/ProductModal.tsx:76-81 | the request's categories become the chosen ones and its category ids their values in order; every other request field and the Save state are unchanged |
| ProductInput.StockChanged | src/components/ProductModal.tsx:83-90 | no contract of its own; `StockChangedCases` states its three cases |
| ProductInput.StockChangedCases | src/components/ProductForm.tsx:91-98 | unparsable text sets stock 0, a negative value is ignored, others are stored; stock never turns negative |
| ProductInput.StockChangedExamples | src/components/ProductModal.tsx:83-90 | `12pcs` gives 12 and `-3` leaves the input unchanged |
| ProductInput.ImageChanged | src/components/ProductModal.tsx:92-99 | a file becomes the request's image; no file leaves the request as it was; every other request field and the Save state are unchanged |
| ProductInput.CategoryOptions | src/components/ProductForm.tsx:109-111 | the options are exactly the chosen store's categories, as label and id |
| ProductInput.CategoryOptionsConcat | src/components/ProductModal.tsx:101-103 | options keep the categories' order |
| ProductInput.SaveDisabled | src/components/ProductModal.tsx:197 | no contract of its own: Save is disabled while the request has no store id; `ChoosingStore` relates it to the store choice |
| ProductInput.ChoosingStore | src/components/ProductModal.tsx:197 | Save is disabled exactly while no store is chosen; choosing one enables it and empties the category choice |
| UpdateProduct.EditFromProduct | src/app/admin/products/useUpdateProduct.ts:69-79 | the edit form copies the product's fields, its store id and its category ids in order, with no new image |
| UpdateProduct.StringifyIds | src/app/admin/products/useUpdateProduct.ts:40 | no contract of its own; `StringifyIdsRoundTrip` proves the text decodes back to the ids |
| UpdateProduct.StringifyIdsRoundTrip | src/app/admin/products/useUpdateProduct.ts:40 | the JSON text of the category ids decodes back to the same ids |
| UpdateProduct.FormEntries | src/app/admin/products/useUpdateProduct.ts:33-44 | no contract of its own; `FormEntriesKeys`, `FormPriceReadable` and `FormCategoryIdsReadable` state its keys and values |
| UpdateProduct.FormEntriesKeys | src/app/admin/products/useUpdateProduct.ts:33-44 | the form's keys in order; `priceBase` is never sent, `stock` only when non-zero, `image` only when given |
| UpdateProduct.FormPriceReadable | src/app/admin/products/useUpdateProduct.ts:35 | the price entry is the price's decimal text, which parses back to the price |
| UpdateProduct.FormCategoryIdsReadable | src/app/admin/products/useUpdateProduct.ts:40 | the category entry decodes back to the request's ids |
| UpdateProduct.FormData.Append | src/app/admin/products/useUpdateProduct.ts:34-43 | appends one entry after the existing ones |
| UpdateProduct.BuildForm | src/app/admin/products/useUpdateProduct.ts:33-44 | the successive appends build exactly the form entries of the request |
| UpdateProduct.ErrorDescription | src/app/admin/products/useUpdateProduct.ts:50-57 | the image-name text when "resource already exist" occurs in the server's error at some index, the request error's message otherwise |
| UpdateProduct.AfterPatch | src/app/admin/products/useUpdateProduct.ts:46-65 | the list is refreshed and the editor closed exactly when the PATCH is accepted, with no toast then |
| UpdateProduct.RejectionToast | src/app/admin/products/useUpdateProduct.ts:49-65 | a rejection with an error text gives exactly one toast: the image-name text when "resource already exist" occurs in the text, the request error's message otherwise; a rejection without one gives none |
| UpdateProduct.ImageNameRejection | src/app/admin/products/useUpdateProduct.ts:51-54 | a duplicate image name yields exactly one toast with the image-name text |
| UpdateProduct.EditProductHook.constructor | src/app/admin/products/useUpdateProduct.ts:17-29 | the edit form starts as the empty form, closed |
| UpdateProduct.EditProductHook.HandleEdit | src/app/admin/products/useUpdateProduct.ts:68-83 | loads the product's edit form and opens the editor |
| UpdateProduct.EditProductHook.HandleEditClose | src/app/admin/products/useUpdateProduct.ts:85-88 | resets the edit form and closes the editor |
| UpdateProduct.EditProductHook.HandleUpdateProduct | src/app/admin/products/useUpdateProduct.ts:31-66 | records the PATCH to the current product's URL with the request's form, then the effects of the answer; the editor closes only on success |
| Text.ContainsAt | src/app/cart/page.tsx:103 | `includes` holds exactly when the needle occurs at some index |
| Text.ParseInt | src/components/ProductModal.tsx:84 | no contract of its own; `ParseIntOfDecimal` proves it reads back every integer's decimal text |
| Text.ParseIntOfDecimal | src/components/ProductModal.tsx:47 | `parseInt` reads back any integer's decimal text, followed by any non-digit |

## Left out

- Network, database and mail I/O are state in `Database` or parameters. The transaction's `maxWait` and `timeout`, and any concurrency between requests, are not modelled.
- A failing `inngest.send` is only its error message, in `mail`. The body of the framework's 500 for a body that is not JSON is not modelled; it is the constant `Unhandled`.
- The background delivery of the queued e-mails and their templates are not modelled. An e-mail is its recipient, subject and order.
- `toIDRFormat`, `encodeURI` and `location.origin` are parameters. The price text that `unFormatPrice` reads is modelled as `Rp.` followed by dot-grouped digits and an optional comma fraction.
- The e-mail regular expression of zod is the parameter `isEmail`.
- Numbers are integers. Fractional prices, floating point and `NaN` are not modelled; `parseInt` returning `NaN` is `None`.
- String lengths count characters, not UTF-16 code units.
- JSON string escapes for characters outside the basic range (surrogate pairs) are not modelled in `StringifyIds`.
- The page's `useEffect` that copies incoming data into the input, all JSX rendering, and the toasts' title, duration and status are not modelled.
- The order status is the single value `Pending` that the route writes. How the status update route uses the status schema is not part of this model.
- The cart store (`useStore`, `clearCart`, `getTotalPrice`) is the items and total of `CartPage.Checkout`. Its own logic is not part of this model.
- An order's generated id and its number are one value, `number`.
- The exact wording of the ORM's error when the store is missing is not modelled. It is the constant `StoreConnectFailure`.
- The zod issue list of a 400 answer is not modelled; the answer body is `ValidationError`.
- `Promise.all` in the stock step is modelled as all checks first, against the stock before the transaction, then the writes in item order. A write issued before a later check fails is rolled back anyway, so the outcome is the same.
- `src/middleware.ts`, the auth callback, `Navbar`, `useDeleteStore` and the interface files are context, not part of this model.
