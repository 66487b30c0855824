/**
 * The order API, `/api/orders`.
 *
 * POST validates the body with the order schema (400 when it does not
 * parse), looks up the store by name, and then runs one transaction that
 *   1. checks every cart item against the stored product and writes its
 *      new stock,
 *   2. finds the customer by phone number or creates one,
 *   3. creates the order with one line per item, and
 *   4. queues the first confirmation e-mail.
 * An error anywhere in the transaction rolls all of it back and the answer
 * is 500 with the error's message. After the transaction a second e-mail
 * is queued and the answer is 200 with the order. GET lists the orders
 * whose store is not deleted.
 *
 * The database is the class `Database`; `Outcome` and `TransactionOutcome`
 * state, as functions of the tables before the call, what a call answers
 * and what the tables are after it, and the lemmas about them are the
 * properties of the route.
 */
module OrderRoute {
  import opened Wrappers
  import opened Text
  import V = Validator

  datatype Store = Store(id: string, name: string, isDeleted: bool)
  datatype Product = Product(id: string, name: string, price: int, stock: int)
  datatype Customer = Customer(
    id: nat, name: string, email: string, phoneNumber: string, address: string)
  datatype LineItem = LineItem(productId: string, quantity: int)
  /** An order; `number` is the order's generated identifier. */
  datatype Order = Order(
    number: nat, total: int, status: string, customerId: nat, storeId: string,
    lines: seq<LineItem>)
  /** The arguments of the e-mail template. */
  datatype EmailBody = EmailBody(
    totalPrice: int, items: seq<V.CartItem>, customer: V.Orderer, orderId: nat)
  datatype Email = Email(recipient: string, subject: string, html: EmailBody)

  /** Everything that POST writes: three tables, the queue of e-mail events
      and the generators of customer ids and order numbers. */
  datatype Tables = Tables(
    products: map<string, Product>, customers: map<string, Customer>,
    orders: seq<Order>, outbox: seq<Email>,
    nextCustomerId: nat, nextOrderNumber: nat)

  datatype ResponseBody =
    | ValidationError
    | Failure(error: string)
    | Created(order: Order, message: string)
    /** The framework's own error answer to an error thrown outside the
        handler's `try`; it carries no JSON body. */
    | Unhandled
  datatype Response = Response(status: int, body: ResponseBody)

  /** What the event client does with the two e-mail events of a POST:
      `None` when `send` accepts the event, `Some(message)` when it throws
      with that message. */
  datatype Mail = Mail(first: Option<string>, second: Option<string>)

  const Pending := "PENDING"
  const Success := "Success to order"
  const ProductMissing := "Product does not exist"
  /** Stands for the message of the error the database client raises when
      the order's store cannot be connected; its wording is not modelled. */
  const StoreConnectFailure := "store to connect not found"

  function OutOfStock(name: string): string {
    "Product " + name + " out of stock"
  }

  // ---------------------------------------------------------------------
  // The stock step
  // ---------------------------------------------------------------------

  /** The error the stock step raises for one item, judged on the stored
      product. */
  function ItemError(products: map<string, Product>, item: V.CartItem): (r: Option<string>)
    ensures r.None? <==> item.id in products && products[item.id].stock >= item.quantity
    ensures item.id !in products ==> r == Some(ProductMissing)
    ensures r.Some? && item.id in products ==> r.value == OutOfStock(products[item.id].name)
  {
    if item.id !in products then Some(ProductMissing)
    else if products[item.id].stock < item.quantity then Some(OutOfStock(products[item.id].name))
    else None
  }

  /**
   * The error of the whole stock step: that of the first failing item.
   * Every item's product is read before any stock is written, so each item
   * is judged on the stock as it was when the transaction began.
   */
  function StockError(products: map<string, Product>, items: seq<V.CartItem>): (r: Option<string>)
    ensures r.Some? ==> exists i :: 0 <= i < |items| && ItemError(products, items[i]) == r
    decreases |items|
  {
    if |items| == 0 then None
    else
      var e := StockError(products, items[..|items| - 1]);
      if e.Some? then
        var i :| 0 <= i < |items| - 1 && ItemError(products, items[..|items| - 1][i]) == e;
        assert items[..|items| - 1][i] == items[i];
        e
      else ItemError(products, items[|items| - 1])
  }

  /** The stock writes, in item order: the new stock of an item's product
      is the stock the client sent minus the quantity. */
  function StockWrites(products: map<string, Product>, items: seq<V.CartItem>): (r: map<string, Product>)
    ensures r.Keys == products.Keys
    decreases |items|
  {
    if |items| == 0 then products
    else
      var p := StockWrites(products, items[..|items| - 1]);
      var item := items[|items| - 1];
      if item.id in p then p[item.id := p[item.id].(stock := item.stock - item.quantity)] else p
  }

  /** The stock step succeeds exactly when no item fails. */
  lemma {:induction false} StockErrorNone(products: map<string, Product>, items: seq<V.CartItem>)
    ensures StockError(products, items) == None <==>
      forall i :: 0 <= i < |items| ==> ItemError(products, items[i]) == None
    decreases |items|
  {
    if |items| > 0 {
      var init := items[..|items| - 1];
      StockErrorNone(products, init);
      assert forall i :: 0 <= i < |init| ==> init[i] == items[i];
    }
  }

  /** Once a prefix of the items fails, the step fails with its error. */
  lemma {:induction false} StockErrorOfPrefix(products: map<string, Product>, items: seq<V.CartItem>, k: nat)
    requires k <= |items| && StockError(products, items[..k]).Some?
    ensures StockError(products, items) == StockError(products, items[..k])
    decreases |items| - k
  {
    if k == |items| {
      assert items[..k] == items;
    } else {
      var init := items[..|items| - 1];
      assert init[..k] == items[..k];
      StockErrorOfPrefix(products, init, k);
    }
  }

  /** The step fails with the error of the first item that fails. */
  lemma StockErrorFirst(products: map<string, Product>, items: seq<V.CartItem>, k: nat)
    requires k < |items| && ItemError(products, items[k]).Some?
    requires forall j :: 0 <= j < k ==> ItemError(products, items[j]) == None
    ensures StockError(products, items) == ItemError(products, items[k])
  {
    var pre := items[..k];
    assert forall j :: 0 <= j < |pre| ==> pre[j] == items[j];
    StockErrorNone(products, pre);
    assert items[..k + 1][..k] == pre;
    StockErrorOfPrefix(products, items, k + 1);
  }

  /** The writes change stock only: every product keeps its id, name and
      price, and no product appears or disappears. */
  lemma {:induction false} StockWritesKeep(products: map<string, Product>, items: seq<V.CartItem>)
    ensures StockWrites(products, items).Keys == products.Keys
    ensures forall id :: id in products ==>
      StockWrites(products, items)[id] == products[id].(stock := StockWrites(products, items)[id].stock)
    decreases |items|
  {
    if |items| > 0 {
      StockWritesKeep(products, items[..|items| - 1]);
    }
  }

  /** A product that no item names keeps its stock. */
  lemma {:induction false} StockWritesUntouched(products: map<string, Product>, items: seq<V.CartItem>, id: string)
    requires id in products
    requires forall i :: 0 <= i < |items| ==> items[i].id != id
    ensures id in StockWrites(products, items) && StockWrites(products, items)[id] == products[id]
    decreases |items|
  {
    if |items| > 0 {
      StockWritesUntouched(products, items[..|items| - 1], id);
    }
  }

  /** The stock of a named product is what the LAST item naming it wrote:
      that item's client stock minus its quantity. */
  lemma {:induction false} StockWritesLast(products: map<string, Product>, items: seq<V.CartItem>, k: nat)
    requires k < |items| && items[k].id in products
    requires forall j :: k < j < |items| ==> items[j].id != items[k].id
    ensures items[k].id in StockWrites(products, items)
    ensures StockWrites(products, items)[items[k].id].stock == items[k].stock - items[k].quantity
    decreases |items|
  {
    var init := items[..|items| - 1];
    StockWritesKeep(products, init);
    if k < |items| - 1 {
      assert init[k] == items[k];
      StockWritesLast(products, init, k);
    }
  }

  /**
   * When every item carries its product's current stock and names a
   * different product, the step does what it is meant to do: each
   * product's stock drops by the quantity and stays non-negative.
   */
  lemma StockDecrementsWhenFresh(products: map<string, Product>, items: seq<V.CartItem>, k: nat)
    requires StockError(products, items) == None
    requires forall i, j :: 0 <= i < j < |items| ==> items[i].id != items[j].id
    requires forall i :: 0 <= i < |items| && items[i].id in products ==>
      items[i].stock == products[items[i].id].stock
    requires k < |items|
    ensures items[k].id in products && items[k].id in StockWrites(products, items)
    ensures StockWrites(products, items)[items[k].id].stock
      == products[items[k].id].stock - items[k].quantity
    ensures StockWrites(products, items)[items[k].id].stock >= 0
  {
    StockErrorNone(products, items);
    assert ItemError(products, items[k]) == None;
    StockWritesLast(products, items, k);
  }

  /** The stock written comes from the client: a cart that was filled when
      the stock was 1, checked out after a restock to 3 with quantity 3,
      passes the check and leaves the stock at -2. */
  lemma StaleStockGoesNegative(item: V.CartItem)
    requires item.id == "p" && item.stock == 1 && item.quantity == 3
    ensures StockError(map["p" := Product("p", "P", 10, 3)], [item]) == None
    ensures "p" in StockWrites(map["p" := Product("p", "P", 10, 3)], [item])
    ensures StockWrites(map["p" := Product("p", "P", 10, 3)], [item])["p"].stock == -2
  {
    var products := map["p" := Product("p", "P", 10, 3)];
    assert [item][..0] == [];
    assert ItemError(products, item) == None;
  }

  // ---------------------------------------------------------------------
  // Store, customer, order and e-mails
  // ---------------------------------------------------------------------

  /** `store.findFirst({ name, isDeleted: false })`: the first store that
      is not deleted and has the name; with no name, any such store. */
  function FindStore(stores: seq<Store>, name: Option<string>): (r: Option<Store>)
    ensures r.Some? ==>
      r.value in stores && !r.value.isDeleted && (name.Some? ==> r.value.name == name.value)
    ensures r.None? ==>
      forall s :: s in stores ==> s.isDeleted || (name.Some? && s.name != name.value)
  {
    if |stores| == 0 then None
    else if !stores[0].isDeleted && (name.None? || stores[0].name == name.value) then Some(stores[0])
    else FindStore(stores[1..], name)
  }

  /** The customer with the orderer's phone number, or the new one built
      from the orderer. With customers keyed by their phone number it has
      the orderer's phone; with ids below `nextId` its id is new exactly
      when the phone is unknown. */
  function CustomerFor(customers: map<string, Customer>, nextId: nat, o: V.Orderer): (r: Customer)
    ensures (forall p :: p in customers ==> customers[p].phoneNumber == p) ==> r.phoneNumber == o.phoneNumber
    ensures (forall p :: p in customers ==> customers[p].id < nextId) ==>
      (r.id < nextId <==> o.phoneNumber in customers)
  {
    if o.phoneNumber in customers then customers[o.phoneNumber]
    else Customer(nextId, o.name, o.email, o.phoneNumber, o.address)
  }

  function LinesOf(items: seq<V.CartItem>): seq<LineItem> {
    seq(|items|, i requires 0 <= i < |items| => LineItem(items[i].id, items[i].quantity))
  }

  function FirstSubject(number: nat): string {
    "Order #" + NatToDecimal(number) + " berhasil dibuat - order "
  }

  function SecondSubject(number: nat): string {
    "Order berhasil dibuat - order #" + NatToDecimal(number)
  }

  function OrderEmail(req: V.OrderRequest, order: Order, subject: string): Email {
    Email(req.orderer.email, subject,
          EmailBody(req.totalPrice, req.items, req.orderer, order.number))
  }

  // ---------------------------------------------------------------------
  // What a call does
  // ---------------------------------------------------------------------

  /**
   * The transaction: its result and the tables after it. It fails on the
   * first failing item, on a store that cannot be connected or on a first
   * e-mail event that `send` refuses; a failure rolls every write back.
   */
  function TransactionOutcome(t: Tables, req: V.OrderRequest, store: Option<Store>, firstSend: Option<string>)
    : (r: (Result<Order, string>, Tables))
    ensures r.0.Err? ==> r.1 == t
    ensures r.0.Ok? <==> StockError(t.products, req.items) == None && store.Some? && firstSend.None?
    ensures r.0.Ok? ==> r.1.orders == t.orders + [r.0.value] && r.0.value.number == t.nextOrderNumber
  {
    var stockError := StockError(t.products, req.items);
    if stockError.Some? then (Err(stockError.value), t)
    else if store.None? then (Err(StoreConnectFailure), t)
    else if firstSend.Some? then (Err(firstSend.value), t)
    else
      var customer := CustomerFor(t.customers, t.nextCustomerId, req.orderer);
      var order := Order(t.nextOrderNumber, req.totalPrice, Pending, customer.id,
                         store.value.id, LinesOf(req.items));
      (Ok(order),
       Tables(StockWrites(t.products, req.items),
              t.customers[req.orderer.phoneNumber := customer],
              t.orders + [order],
              t.outbox + [OrderEmail(req, order, FirstSubject(order.number))],
              if req.orderer.phoneNumber in t.customers then t.nextCustomerId else t.nextCustomerId + 1,
              t.nextOrderNumber + 1))
  }

  /**
   * POST with a JSON body: the response and the tables after it. The
   * second e-mail event is sent after the transaction has committed, so a
   * refused second send answers 500 over committed tables.
   */
  function Outcome(t: Tables, stores: seq<Store>, isEmail: string -> bool, body: V.Json, mail: Mail)
    : (r: (Response, Tables))
    ensures r.0.status in {200, 400, 500}
    ensures r.0.status == 400 <==> V.ParseOrderRequest(isEmail, body).None?
    ensures r.0.status == 400 ==> r == (Response(400, ValidationError), t)
  {
    var parsed := V.ParseOrderRequest(isEmail, body);
    if parsed.None? then (Response(400, ValidationError), t)
    else
      var req := parsed.value;
      var (tr, t') := TransactionOutcome(t, req, FindStore(stores, req.storeName), mail.first);
      if tr.Err? then (Response(500, Failure(tr.error)), t')
      else if mail.second.Some? then (Response(500, Failure(mail.second.value)), t')
      else
        (Response(200, Created(tr.value, Success)),
         t'.(outbox := t'.outbox + [OrderEmail(req, tr.value, SecondSubject(tr.value.number))]))
  }

  /** The transaction commits: the body parses, no item fails, a store is
      found and the first e-mail event is accepted. */
  predicate Commits(t: Tables, stores: seq<Store>, isEmail: string -> bool, body: V.Json, mail: Mail) {
    var parsed := V.ParseOrderRequest(isEmail, body);
    parsed.Some? && StockError(t.products, parsed.value.items) == None
    && FindStore(stores, parsed.value.storeName).Some? && mail.first.None?
  }

  /** The order succeeds: the transaction commits and the second e-mail
      event is accepted too. */
  predicate Succeeds(t: Tables, stores: seq<Store>, isEmail: string -> bool, body: V.Json, mail: Mail) {
    Commits(t, stores, isEmail, body, mail) && mail.second.None?
  }

  /** Every answer is 200, 400 or 500, it is 200 exactly when the order
      succeeds, and the tables change exactly when the transaction
      commits, whatever the answer. */
  lemma OutcomeStatus(t: Tables, stores: seq<Store>, isEmail: string -> bool, body: V.Json, mail: Mail)
    ensures Outcome(t, stores, isEmail, body, mail).0.status in {200, 400, 500}
    ensures Outcome(t, stores, isEmail, body, mail).0.status == 200 <==> Succeeds(t, stores, isEmail, body, mail)
    ensures Outcome(t, stores, isEmail, body, mail).1 == t <==> !Commits(t, stores, isEmail, body, mail)
  {
    if Commits(t, stores, isEmail, body, mail) {
      var t' := Outcome(t, stores, isEmail, body, mail).1;
      assert |t'.orders| == |t.orders| + 1;
    }
  }

  /** A body the schema refuses is answered 400 and writes nothing. */
  lemma InvalidBodyRejected(t: Tables, stores: seq<Store>, isEmail: string -> bool, body: V.Json, mail: Mail)
    requires V.ParseOrderRequest(isEmail, body).None?
    ensures Outcome(t, stores, isEmail, body, mail) == (Response(400, ValidationError), t)
  {
  }

  /** When item `k` is the first that fails, the answer is 500 with that
      item's message ("Product does not exist" or "Product <name> out of
      stock") and nothing is written, whatever the e-mail client does. */
  lemma FailingItemAborts(t: Tables, stores: seq<Store>, isEmail: string -> bool, body: V.Json, mail: Mail, k: nat)
    requires V.ParseOrderRequest(isEmail, body).Some?
    requires var items := V.ParseOrderRequest(isEmail, body).value.items;
      && k < |items| && ItemError(t.products, items[k]).Some?
      && forall j :: 0 <= j < k ==> ItemError(t.products, items[j]) == None
    ensures var items := V.ParseOrderRequest(isEmail, body).value.items;
      Outcome(t, stores, isEmail, body, mail)
        == (Response(500, Failure(ItemError(t.products, items[k]).value)), t)
  {
    StockErrorFirst(t.products, V.ParseOrderRequest(isEmail, body).value.items, k);
  }

  /** With the stock step passing but no store found, the order cannot be
      created: 500, and the stock and customer writes are rolled back. */
  lemma MissingStoreAborts(t: Tables, stores: seq<Store>, isEmail: string -> bool, body: V.Json, mail: Mail)
    requires V.ParseOrderRequest(isEmail, body).Some?
    requires StockError(t.products, V.ParseOrderRequest(isEmail, body).value.items) == None
    requires FindStore(stores, V.ParseOrderRequest(isEmail, body).value.storeName).None?
    ensures Outcome(t, stores, isEmail, body, mail) == (Response(500, Failure(StoreConnectFailure)), t)
  {
  }

  /** A first e-mail event that `send` refuses fails the transaction: 500
      with the client's message, and the order, the customer and the stock
      writes are rolled back. */
  lemma FirstSendAborts(t: Tables, stores: seq<Store>, isEmail: string -> bool, body: V.Json, mail: Mail)
    requires V.ParseOrderRequest(isEmail, body).Some?
    requires StockError(t.products, V.ParseOrderRequest(isEmail, body).value.items) == None
    requires FindStore(stores, V.ParseOrderRequest(isEmail, body).value.storeName).Some?
    requires mail.first.Some?
    ensures Outcome(t, stores, isEmail, body, mail) == (Response(500, Failure(mail.first.value)), t)
  {
  }

  /** A second e-mail event that `send` refuses comes after the commit:
      the answer is 500 with the client's message, yet the order is stored,
      the stock written, the customer recorded and the first e-mail queued. */
  lemma SecondSendFailsAfterCommit(t: Tables, stores: seq<Store>, isEmail: string -> bool, body: V.Json, mail: Mail)
    requires Commits(t, stores, isEmail, body, mail)
    requires mail.second.Some?
    ensures var req := V.ParseOrderRequest(isEmail, body).value;
      var (resp, t') := Outcome(t, stores, isEmail, body, mail);
      && resp == Response(500, Failure(mail.second.value))
      && |t'.orders| == |t.orders| + 1 && t'.orders[..|t.orders|] == t.orders
      && t'.orders[|t.orders|].number == t.nextOrderNumber
      && t'.orders[|t.orders|].storeId == FindStore(stores, req.storeName).value.id
      && t'.products == StockWrites(t.products, req.items)
      && req.orderer.phoneNumber in t'.customers
      && t'.outbox == t.outbox + [OrderEmail(req, t'.orders[|t.orders|], FirstSubject(t.nextOrderNumber))]
  {
    var t' := Outcome(t, stores, isEmail, body, mail).1;
    assert t'.orders[..|t.orders|] == t.orders;
  }

  /**
   * A successful POST answers 200 with the new order, which is PENDING,
   * totals the price the client sent, belongs to the store found and to the
   * orderer's customer, and has one line per item with its product and
   * quantity. The stock is written, the order appended, and exactly two
   * e-mails, both to the orderer's address and both naming the order's
   * number, are queued.
   */
  lemma SuccessfulOrder(t: Tables, stores: seq<Store>, isEmail: string -> bool, body: V.Json, mail: Mail)
    requires Succeeds(t, stores, isEmail, body, mail)
    ensures var req := V.ParseOrderRequest(isEmail, body).value;
      var (resp, t') := Outcome(t, stores, isEmail, body, mail);
      && resp.status == 200 && resp.body.Created? && resp.body.message == Success
      && var order := resp.body.order;
      && order.number == t.nextOrderNumber
      && order.status == Pending
      && order.total == req.totalPrice
      && order.storeId == FindStore(stores, req.storeName).value.id
      && req.orderer.phoneNumber in t'.customers
      && order.customerId == t'.customers[req.orderer.phoneNumber].id
      && |order.lines| == |req.items|
      && (forall i :: 0 <= i < |req.items| ==>
            order.lines[i] == LineItem(req.items[i].id, req.items[i].quantity))
      && t'.products == StockWrites(t.products, req.items)
      && t'.orders == t.orders + [order]
      && t'.nextOrderNumber == t.nextOrderNumber + 1
      && t'.outbox == t.outbox + [OrderEmail(req, order, FirstSubject(order.number)),
                                  OrderEmail(req, order, SecondSubject(order.number))]
      && t'.outbox[|t.outbox|].recipient == req.orderer.email
      && t'.outbox[|t.outbox| + 1].recipient == req.orderer.email
  {
  }

  /** A phone number already known reuses its customer: the customer
      table is unchanged (the stored name, e-mail and address are kept),
      whether or not the second e-mail is sent. */
  lemma KnownPhoneReusesCustomer(t: Tables, stores: seq<Store>, isEmail: string -> bool, body: V.Json, mail: Mail)
    requires Commits(t, stores, isEmail, body, mail)
    requires V.ParseOrderRequest(isEmail, body).value.orderer.phoneNumber in t.customers
    ensures var phone := V.ParseOrderRequest(isEmail, body).value.orderer.phoneNumber;
      var t' := Outcome(t, stores, isEmail, body, mail).1;
      && t'.customers == t.customers
      && t'.nextCustomerId == t.nextCustomerId
      && |t'.orders| == |t.orders| + 1 && t'.orders[|t.orders|].customerId == t.customers[phone].id
  {
    var phone := V.ParseOrderRequest(isEmail, body).value.orderer.phoneNumber;
    assert t.customers[phone := t.customers[phone]] == t.customers;
  }

  /** An unknown phone number creates exactly one customer, with the next
      id and the orderer's details. */
  lemma NewPhoneCreatesCustomer(t: Tables, stores: seq<Store>, isEmail: string -> bool, body: V.Json, mail: Mail)
    requires Commits(t, stores, isEmail, body, mail)
    requires V.ParseOrderRequest(isEmail, body).value.orderer.phoneNumber !in t.customers
    ensures var o := V.ParseOrderRequest(isEmail, body).value.orderer;
      var t' := Outcome(t, stores, isEmail, body, mail).1;
      && t'.customers == t.customers[o.phoneNumber := Customer(t.nextCustomerId, o.name, o.email, o.phoneNumber, o.address)]
      && t'.nextCustomerId == t.nextCustomerId + 1
  {
  }

  /** Two orders in a row from the same phone number share one customer. */
  lemma RepeatPhoneSharesCustomer(t: Tables, stores: seq<Store>, isEmail: string -> bool,
                                  body1: V.Json, mail1: Mail, body2: V.Json, mail2: Mail)
    requires Succeeds(t, stores, isEmail, body1, mail1)
    requires Succeeds(Outcome(t, stores, isEmail, body1, mail1).1, stores, isEmail, body2, mail2)
    requires V.ParseOrderRequest(isEmail, body1).value.orderer.phoneNumber
          == V.ParseOrderRequest(isEmail, body2).value.orderer.phoneNumber
    ensures var (r1, t1) := Outcome(t, stores, isEmail, body1, mail1);
      var (r2, t2) := Outcome(t1, stores, isEmail, body2, mail2);
      && r1.body.Created? && r2.body.Created?
      && r1.body.order.customerId == r2.body.order.customerId
      && t2.customers == t1.customers
  {
    SuccessfulOrder(t, stores, isEmail, body1, mail1);
    var t1 := Outcome(t, stores, isEmail, body1, mail1).1;
    SuccessfulOrder(t1, stores, isEmail, body2, mail2);
    KnownPhoneReusesCustomer(t1, stores, isEmail, body2, mail2);
  }

  // ---------------------------------------------------------------------
  // Referential integrity
  // ---------------------------------------------------------------------

  predicate HasCustomer(customers: map<string, Customer>, id: nat) {
    exists p :: p in customers && customers[p].id == id
  }

  predicate HasStore(stores: seq<Store>, id: string) {
    exists s :: s in stores && s.id == id
  }

  /** An order points at rows that exist and its number was generated. */
  predicate OrderLinked(t: Tables, stores: seq<Store>, o: Order) {
    && o.number < t.nextOrderNumber
    && HasCustomer(t.customers, o.customerId)
    && HasStore(stores, o.storeId)
    && forall l :: l in o.lines ==> l.productId in t.products
  }

  /** The tables' invariant: customers are keyed by their phone number and
      have distinct ids below the generator, orders are linked and their
      numbers increase. */
  predicate TablesValid(t: Tables, stores: seq<Store>) {
    && (forall p :: p in t.customers ==>
          t.customers[p].phoneNumber == p && t.customers[p].id < t.nextCustomerId)
    && (forall p, q :: p in t.customers && q in t.customers && p != q ==>
          t.customers[p].id != t.customers[q].id)
    && (forall i :: 0 <= i < |t.orders| ==> OrderLinked(t, stores, t.orders[i]))
    && (forall i, j :: 0 <= i < j < |t.orders| ==> t.orders[i].number < t.orders[j].number)
  }

  /** Recording an orderer keeps the customers keyed by phone number with
      distinct ids below the generator, loses no customer, and holds the
      customer the order points at. */
  lemma {:induction false} CustomersStayValid(t: Tables, o: V.Orderer)
    requires forall p :: p in t.customers ==>
      t.customers[p].phoneNumber == p && t.customers[p].id < t.nextCustomerId
    requires forall p, q :: p in t.customers && q in t.customers && p != q ==>
      t.customers[p].id != t.customers[q].id
    ensures var c := CustomerFor(t.customers, t.nextCustomerId, o);
      var cs := t.customers[o.phoneNumber := c];
      var n := if o.phoneNumber in t.customers then t.nextCustomerId else t.nextCustomerId + 1;
      && (forall p :: p in cs ==> cs[p].phoneNumber == p && cs[p].id < n)
      && (forall p, q :: p in cs && q in cs && p != q ==> cs[p].id != cs[q].id)
      && (forall id :: HasCustomer(t.customers, id) ==> HasCustomer(cs, id))
      && HasCustomer(cs, c.id)
  {
    var c := CustomerFor(t.customers, t.nextCustomerId, o);
    var cs := t.customers[o.phoneNumber := c];
    if o.phoneNumber in t.customers {
      assert cs == t.customers;
    }
    assert o.phoneNumber in cs && cs[o.phoneNumber].id == c.id;
    forall id | HasCustomer(t.customers, id)
      ensures HasCustomer(cs, id)
    {
      var p :| p in t.customers && t.customers[p].id == id;
      if p == o.phoneNumber {
        assert cs[p] == t.customers[p];
      }
      assert p in cs && cs[p].id == id;
    }
  }

  /** An order stays linked when numbers only grow, no customer is lost
      and no product disappears. */
  lemma LinkedStaysLinked(t: Tables, t': Tables, stores: seq<Store>, o: Order)
    requires OrderLinked(t, stores, o)
    requires t.nextOrderNumber <= t'.nextOrderNumber
    requires forall id :: HasCustomer(t.customers, id) ==> HasCustomer(t'.customers, id)
    requires t.products.Keys <= t'.products.Keys
    ensures OrderLinked(t', stores, o)
  {
  }

  /** The new order's lines name products that exist. */
  lemma {:induction false} NewLinesExist(products: map<string, Product>, items: seq<V.CartItem>)
    requires StockError(products, items) == None
    ensures forall l :: l in LinesOf(items) ==> l.productId in StockWrites(products, items)
  {
    StockWritesKeep(products, items);
    StockErrorNone(products, items);
    forall l | l in LinesOf(items)
      ensures l.productId in StockWrites(products, items)
    {
      var i :| 0 <= i < |items| && LinesOf(items)[i] == l;
      assert ItemError(products, items[i]) == None;
    }
  }

  /** A successful transaction keeps the invariant. */
  lemma {:induction false} TransactionKeepsValid(t: Tables, stores: seq<Store>, req: V.OrderRequest, store: Store)
    requires TablesValid(t, stores)
    requires store in stores
    requires StockError(t.products, req.items) == None
    ensures TablesValid(TransactionOutcome(t, req, Some(store), None).1, stores)
  {
    var t' := TransactionOutcome(t, req, Some(store), None).1;
    var order := t'.orders[|t.orders|];
    CustomersStayValid(t, req.orderer);
    StockWritesKeep(t.products, req.items);
    NewLinesExist(t.products, req.items);
    assert OrderLinked(t', stores, order) by {
      assert HasStore(stores, order.storeId) by { assert store in stores; }
    }
    forall i | 0 <= i < |t'.orders|
      ensures OrderLinked(t', stores, t'.orders[i])
    {
      if i < |t.orders| {
        assert t'.orders[i] == t.orders[i];
        LinkedStaysLinked(t, t', stores, t.orders[i]);
      }
    }
    forall i, j | 0 <= i < j < |t'.orders|
      ensures t'.orders[i].number < t'.orders[j].number
    {
      if j == |t.orders| {
        assert OrderLinked(t, stores, t.orders[i]);
      }
    }
  }

  /** A committed POST writes what the transaction wrote, plus at most
      the second e-mail. */
  lemma CommitWritesTransaction(t: Tables, stores: seq<Store>, isEmail: string -> bool, body: V.Json, mail: Mail)
    requires Commits(t, stores, isEmail, body, mail)
    ensures var req := V.ParseOrderRequest(isEmail, body).value;
      var t1 := TransactionOutcome(t, req, FindStore(stores, req.storeName), None).1;
      Outcome(t, stores, isEmail, body, mail).1 == t1.(outbox := Outcome(t, stores, isEmail, body, mail).1.outbox)
  {
  }

  /** The invariant does not depend on the outbox. */
  lemma ValidIgnoresOutbox(t: Tables, stores: seq<Store>, outbox: seq<Email>)
    requires TablesValid(t, stores)
    ensures TablesValid(t.(outbox := outbox), stores)
  {
    var t' := t.(outbox := outbox);
    forall i | 0 <= i < |t'.orders|
      ensures OrderLinked(t', stores, t'.orders[i])
    {
      assert OrderLinked(t, stores, t.orders[i]);
    }
  }

  /** POST keeps the invariant, whatever the answer and whatever the
      e-mail client does. */
  lemma OutcomeKeepsValid(t: Tables, stores: seq<Store>, isEmail: string -> bool, body: V.Json, mail: Mail)
    requires TablesValid(t, stores)
    ensures TablesValid(Outcome(t, stores, isEmail, body, mail).1, stores)
  {
    if Commits(t, stores, isEmail, body, mail) {
      var req := V.ParseOrderRequest(isEmail, body).value;
      var store := FindStore(stores, req.storeName).value;
      TransactionKeepsValid(t, stores, req, store);
      CommitWritesTransaction(t, stores, isEmail, body, mail);
      ValidIgnoresOutbox(TransactionOutcome(t, req, Some(store), None).1, stores,
                         Outcome(t, stores, isEmail, body, mail).1.outbox);
    } else {
      OutcomeStatus(t, stores, isEmail, body, mail);
    }
  }

  // ---------------------------------------------------------------------
  // GET
  // ---------------------------------------------------------------------

  predicate StoreActive(stores: seq<Store>, id: string) {
    exists s :: s in stores && s.id == id && !s.isDeleted
  }

  /** GET: the orders whose store is not deleted, in table order. */
  function ActiveOrders(stores: seq<Store>, orders: seq<Order>): (r: seq<Order>)
    ensures forall o :: o in r <==> o in orders && StoreActive(stores, o.storeId)
    ensures |r| <= |orders|
  {
    if |orders| == 0 then []
    else
      (if StoreActive(stores, orders[0].storeId) then [orders[0]] else [])
      + ActiveOrders(stores, orders[1..])
  }

  // ---------------------------------------------------------------------
  // The database
  // ---------------------------------------------------------------------

  class Database {
    /** The store table: read by POST and GET, written elsewhere. */
    const stores: seq<Store>
    var products: map<string, Product>
    var customers: map<string, Customer>
    var orders: seq<Order>
    var outbox: seq<Email>
    var nextCustomerId: nat
    var nextOrderNumber: nat

    function Snapshot(): Tables
      reads this
    {
      Tables(products, customers, orders, outbox, nextCustomerId, nextOrderNumber)
    }

    predicate Valid()
      reads this
    {
      TablesValid(Snapshot(), stores)
    }

    constructor (stores: seq<Store>, products: map<string, Product>)
      ensures this.stores == stores
      ensures Snapshot() == Tables(products, map[], [], [], 0, 0)
      ensures Valid()
    {
      this.stores := stores;
      this.products := products;
      customers := map[];
      orders := [];
      outbox := [];
      nextCustomerId := 0;
      nextOrderNumber := 0;
    }

    /** The checks of the stock step, item by item. */
    method CheckStock(items: seq<V.CartItem>) returns (err: Option<string>)
      ensures err == StockError(products, items)
    {
      var i := 0;
      while i < |items|
        invariant 0 <= i <= |items|
        invariant StockError(products, items[..i]) == None
      {
        var item := items[i];
        assert items[..i + 1][..i] == items[..i];
        if item.id !in products {
          StockErrorOfPrefix(products, items, i + 1);
          return Some(ProductMissing);
        }
        var product := products[item.id];
        if product.stock < item.quantity {
          StockErrorOfPrefix(products, items, i + 1);
          return Some(OutOfStock(product.name));
        }
        i := i + 1;
      }
      assert items[..|items|] == items;
      return None;
    }

    /** The writes of the stock step, item by item. */
    method WriteStock(items: seq<V.CartItem>)
      modifies this`products
      ensures products == StockWrites(old(products), items)
    {
      var i := 0;
      while i < |items|
        invariant 0 <= i <= |items|
        invariant products == StockWrites(old(products), items[..i])
      {
        var item := items[i];
        assert items[..i + 1][..i] == items[..i];
        if item.id in products {
          products := products[item.id := products[item.id].(stock := item.stock - item.quantity)];
        }
        i := i + 1;
      }
      assert items[..|items|] == items;
    }

    /** Find the customer by phone number, or create it. */
    method FindOrCreateCustomer(o: V.Orderer) returns (c: Customer)
      modifies this`customers, this`nextCustomerId
      ensures c == CustomerFor(old(customers), old(nextCustomerId), o)
      ensures customers == old(customers)[o.phoneNumber := c]
      ensures nextCustomerId ==
        if o.phoneNumber in old(customers) then old(nextCustomerId) else old(nextCustomerId) + 1
    {
      if o.phoneNumber in customers {
        c := customers[o.phoneNumber];
        assert customers[o.phoneNumber := c] == customers;
      } else {
        c := Customer(nextCustomerId, o.name, o.email, o.phoneNumber, o.address);
        customers := customers[o.phoneNumber := c];
        nextCustomerId := nextCustomerId + 1;
      }
    }

    /** Undo every write since `saved` was taken. */
    method RollBack(saved: Tables)
      modifies this
      ensures Snapshot() == saved
    {
      products := saved.products;
      customers := saved.customers;
      orders := saved.orders;
      outbox := saved.outbox;
      nextCustomerId := saved.nextCustomerId;
      nextOrderNumber := saved.nextOrderNumber;
    }

    /**
     * The transaction. Every product is read before any stock is written;
     * a failing check ends it before the first write, and a write issued
     * before another item's check failed would be rolled back, so the
     * checks of all items come first here.
     */
    method Transaction(req: V.OrderRequest, store: Option<Store>, firstSend: Option<string>)
      returns (r: Result<Order, string>)
      modifies this
      ensures (r, Snapshot()) == TransactionOutcome(old(Snapshot()), req, store, firstSend)
    {
      var saved := Snapshot();
      var err := CheckStock(req.items);
      if err.Some? {
        return Err(err.value);
      }
      WriteStock(req.items);
      var customer := FindOrCreateCustomer(req.orderer);
      if store.None? {
        RollBack(saved);
        return Err(StoreConnectFailure);
      }
      var order := Order(nextOrderNumber, req.totalPrice, Pending, customer.id,
                         store.value.id, LinesOf(req.items));
      orders := orders + [order];
      nextOrderNumber := nextOrderNumber + 1;
      if firstSend.Some? {
        RollBack(saved);
        return Err(firstSend.value);
      }
      outbox := outbox + [OrderEmail(req, order, FirstSubject(order.number))];
      r := Ok(order);
    }

    /**
     * POST /api/orders. The body is `None` when its text is not JSON:
     * reading it throws before the handler's `try`, and the framework
     * answers 500 with nothing written.
     */
    method Post(isEmail: string -> bool, body: Option<V.Json>, mail: Mail) returns (resp: Response)
      requires Valid()
      modifies this
      ensures Valid()
      ensures body.None? ==> resp == Response(500, Unhandled) && Snapshot() == old(Snapshot())
      ensures body.Some? ==> (resp, Snapshot()) == Outcome(old(Snapshot()), stores, isEmail, body.value, mail)
    {
      if body.None? {
        return Response(500, Unhandled);
      }
      ghost var before := Snapshot();
      OutcomeKeepsValid(before, stores, isEmail, body.value, mail);
      var parsed := V.ParseOrderRequest(isEmail, body.value);
      if parsed.None? {
        return Response(400, ValidationError);
      }
      var req := parsed.value;
      var store := FindStore(stores, req.storeName);
      var r := Transaction(req, store, mail.first);
      if r.Err? {
        return Response(500, Failure(r.error));
      }
      if mail.second.Some? {
        return Response(500, Failure(mail.second.value));
      }
      outbox := outbox + [OrderEmail(req, r.value, SecondSubject(r.value.number))];
      resp := Response(200, Created(r.value, Success));
    }

    /** GET /api/orders */
    method Get() returns (r: seq<Order>)
      ensures r == ActiveOrders(stores, orders)
      ensures forall o :: o in r <==> o in orders && StoreActive(stores, o.storeId)
    {
      r := ActiveOrders(stores, orders);
    }
  }
}
