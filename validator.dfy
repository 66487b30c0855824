/**
 * The request-body schemas of the API (`createOrderSchema`,
 * `updateOrderStatusSchema`, `createProductSchema` and
 * `updateProductSchema`) as parsers from a JSON value to a typed request.
 * Like a zod object schema, each parser rejects a body whose declared
 * fields are missing or of the wrong type, ignores keys it does not
 * declare, and returns only the declared fields. `None` is a rejected body.
 *
 * `z.string().email()` checks a format by a library regular expression; it
 * is the parameter `isEmail` here.
 */
module Validator {
  import opened Wrappers

  /** A parsed JSON value. Numbers are integral. */
  datatype Json =
    | JNull
    | JBool(b: bool)
    | JNumber(n: int)
    | JString(s: string)
    | JArray(elems: seq<Json>)
    | JObject(fields: map<string, Json>)

  /** Reading a property: `None` is `undefined`. */
  function Field(o: map<string, Json>, key: string): Option<Json> {
    if key in o then Some(o[key]) else None
  }

  function AsString(v: Option<Json>): Option<string> {
    if v.Some? && v.value.JString? then Some(v.value.s) else None
  }

  function AsNumber(v: Option<Json>): Option<int> {
    if v.Some? && v.value.JNumber? then Some(v.value.n) else None
  }

  function AsBool(v: Option<Json>): Option<bool> {
    if v.Some? && v.value.JBool? then Some(v.value.b) else None
  }

  function AsObject(v: Option<Json>): Option<map<string, Json>> {
    if v.Some? && v.value.JObject? then Some(v.value.fields) else None
  }

  function AsArray(v: Option<Json>): Option<seq<Json>> {
    if v.Some? && v.value.JArray? then Some(v.value.elems) else None
  }

  /** `z.optional(z.string())`: `Some(None)` is an accepted absent value. */
  function AsOptionalString(v: Option<Json>): Option<Option<string>> {
    if v.None? then Some(None)
    else if v.value.JString? then Some(Some(v.value.s))
    else None
  }

  /** `z.string().nullable()`: `Some(None)` is an accepted `null`. */
  function AsNullableString(v: Option<Json>): Option<Option<string>> {
    if v.Some? && v.value.JNull? then Some(None)
    else if v.Some? && v.value.JString? then Some(Some(v.value.s))
    else None
  }

  // ---------------------------------------------------------------------
  // createOrderSchema
  // ---------------------------------------------------------------------

  const Roles: set<string> := {"admin", "user", "customer"}

  datatype User = User(
    id: string, name: string, email: string, role: string,
    createdAt: string, updatedAt: string, phoneNumber: Option<string>,
    lastSignInAt: string)

  datatype StoreInfo = StoreInfo(
    id: string, name: string, isDeleted: bool, createdAt: string,
    updatedAt: string, user: User)

  datatype CategoryInfo = CategoryInfo(
    id: string, name: string, storeId: string, createdAt: string, updatedAt: string)

  /** One cart line as the client sends it: the product as it was when it
      was put in the cart, plus the chosen quantity. */
  datatype CartItem = CartItem(
    id: string, name: string, priceBase: int, price: int, stock: int,
    store: StoreInfo, description: string, imageUrl: string,
    categories: seq<CategoryInfo>, quantity: int)

  datatype Orderer = Orderer(name: string, email: string, phoneNumber: string, address: string)

  datatype OrderRequest = OrderRequest(
    storeName: Option<string>, orderer: Orderer, items: seq<CartItem>, totalPrice: int)

  /** `UserSchema` */
  function ParseUser(isEmail: string -> bool, v: Option<Json>): Option<User> {
    var o :- AsObject(v);
    var id :- AsString(Field(o, "id"));
    var name :- AsString(Field(o, "name"));
    var email :- AsString(Field(o, "email"));
    var role :- AsString(Field(o, "role"));
    var createdAt :- AsString(Field(o, "createdAt"));
    var updatedAt :- AsString(Field(o, "updatedAt"));
    var phoneNumber :- AsNullableString(Field(o, "phoneNumber"));
    var lastSignInAt :- AsString(Field(o, "lastSignInAt"));
    if isEmail(email) && role in Roles then
      Some(User(id, name, email, role, createdAt, updatedAt, phoneNumber, lastSignInAt))
    else None
  }

  function ParseStore(isEmail: string -> bool, v: Option<Json>): Option<StoreInfo> {
    var o :- AsObject(v);
    var id :- AsString(Field(o, "id"));
    var name :- AsString(Field(o, "name"));
    var isDeleted :- AsBool(Field(o, "isDeleted"));
    var createdAt :- AsString(Field(o, "createdAt"));
    var updatedAt :- AsString(Field(o, "updatedAt"));
    var user :- ParseUser(isEmail, Field(o, "user"));
    Some(StoreInfo(id, name, isDeleted, createdAt, updatedAt, user))
  }

  function ParseCategory(v: Option<Json>): Option<CategoryInfo> {
    var o :- AsObject(v);
    var id :- AsString(Field(o, "id"));
    var name :- AsString(Field(o, "name"));
    var storeId :- AsString(Field(o, "storeId"));
    var createdAt :- AsString(Field(o, "createdAt"));
    var updatedAt :- AsString(Field(o, "updatedAt"));
    Some(CategoryInfo(id, name, storeId, createdAt, updatedAt))
  }

  /** `z.array(category)`: every element must parse. */
  function ParseCategories(elems: seq<Json>): (r: Option<seq<CategoryInfo>>)
    ensures r.Some? ==> |r.value| == |elems|
  {
    if |elems| == 0 then Some([])
    else
      var head :- ParseCategory(Some(elems[0]));
      var tail :- ParseCategories(elems[1..]);
      Some([head] + tail)
  }

  function ParseItem(isEmail: string -> bool, v: Option<Json>): Option<CartItem> {
    var o :- AsObject(v);
    var id :- AsString(Field(o, "id"));
    var name :- AsString(Field(o, "name"));
    var priceBase :- AsNumber(Field(o, "priceBase"));
    var price :- AsNumber(Field(o, "price"));
    var stock :- AsNumber(Field(o, "stock"));
    var store :- ParseStore(isEmail, Field(o, "store"));
    var description :- AsString(Field(o, "description"));
    var imageUrl :- AsString(Field(o, "imageUrl"));
    var categoryElems :- AsArray(Field(o, "categories"));
    var categories :- ParseCategories(categoryElems);
    var quantity :- AsNumber(Field(o, "quantity"));
    Some(CartItem(id, name, priceBase, price, stock, store, description, imageUrl, categories, quantity))
  }

  function ParseItems(isEmail: string -> bool, elems: seq<Json>): (r: Option<seq<CartItem>>)
    ensures r.Some? ==> |r.value| == |elems|
  {
    if |elems| == 0 then Some([])
    else
      var head :- ParseItem(isEmail, Some(elems[0]));
      var tail :- ParseItems(isEmail, elems[1..]);
      Some([head] + tail)
  }

  function ParseOrderer(v: Option<Json>): Option<Orderer> {
    var o :- AsObject(v);
    var name :- AsString(Field(o, "name"));
    var email :- AsString(Field(o, "email"));
    var phoneNumber :- AsString(Field(o, "phoneNumber"));
    var address :- AsString(Field(o, "address"));
    Some(Orderer(name, email, phoneNumber, address))
  }

  /** The keys `createOrderSchema` declares at the top level. */
  const OrderRequestKeys: set<string> := {"storeName", "orderer", "items", "totalPrice"}

  /**
   * `createOrderSchema.safeParse(body)`. An accepted body is an object
   * whose orderer has string name, email, phone number and address (the
   * email's format is not checked) and whose total is a number.
   */
  function ParseOrderRequest(isEmail: string -> bool, body: Json): (r: Option<OrderRequest>)
    ensures r.Some? ==> body.JObject? && "orderer" in body.fields
    ensures r.Some? ==>
      var o := body.fields["orderer"];
      o.JObject? && Field(o.fields, "name") == Some(JString(r.value.orderer.name))
      && Field(o.fields, "email") == Some(JString(r.value.orderer.email))
      && Field(o.fields, "phoneNumber") == Some(JString(r.value.orderer.phoneNumber))
      && Field(o.fields, "address") == Some(JString(r.value.orderer.address))
    ensures r.Some? ==> Field(body.fields, "totalPrice") == Some(JNumber(r.value.totalPrice))
    ensures r.Some? ==>
      "items" in body.fields && body.fields["items"].JArray?
      && |r.value.items| == |body.fields["items"].elems|
  {
    var o :- AsObject(Some(body));
    var storeName :- AsOptionalString(Field(o, "storeName"));
    var orderer :- ParseOrderer(Field(o, "orderer"));
    var itemElems :- AsArray(Field(o, "items"));
    var items :- ParseItems(isEmail, itemElems);
    var totalPrice :- AsNumber(Field(o, "totalPrice"));
    Some(OrderRequest(storeName, orderer, items, totalPrice))
  }

  // ---------------------------------------------------------------------
  // Encoding a typed request as the JSON a client sends
  // ---------------------------------------------------------------------

  function UserToJson(u: User): Json {
    JObject(map[
      "id" := JString(u.id), "name" := JString(u.name), "email" := JString(u.email),
      "role" := JString(u.role), "createdAt" := JString(u.createdAt),
      "updatedAt" := JString(u.updatedAt),
      "phoneNumber" := (if u.phoneNumber.Some? then JString(u.phoneNumber.value) else JNull),
      "lastSignInAt" := JString(u.lastSignInAt)])
  }

  function StoreToJson(s: StoreInfo): Json {
    JObject(map[
      "id" := JString(s.id), "name" := JString(s.name), "isDeleted" := JBool(s.isDeleted),
      "createdAt" := JString(s.createdAt), "updatedAt" := JString(s.updatedAt),
      "user" := UserToJson(s.user)])
  }

  function CategoryToJson(c: CategoryInfo): Json {
    JObject(map[
      "id" := JString(c.id), "name" := JString(c.name), "storeId" := JString(c.storeId),
      "createdAt" := JString(c.createdAt), "updatedAt" := JString(c.updatedAt)])
  }

  function CategoriesToJson(cs: seq<CategoryInfo>): (r: seq<Json>)
    ensures |r| == |cs|
    ensures forall i :: 0 <= i < |cs| ==> r[i] == CategoryToJson(cs[i])
  {
    seq(|cs|, i requires 0 <= i < |cs| => CategoryToJson(cs[i]))
  }

  function ItemToJson(it: CartItem): Json {
    JObject(map[
      "id" := JString(it.id), "name" := JString(it.name),
      "priceBase" := JNumber(it.priceBase), "price" := JNumber(it.price),
      "stock" := JNumber(it.stock), "store" := StoreToJson(it.store),
      "description" := JString(it.description), "imageUrl" := JString(it.imageUrl),
      "categories" := JArray(CategoriesToJson(it.categories)),
      "quantity" := JNumber(it.quantity)])
  }

  function ItemsToJson(items: seq<CartItem>): (r: seq<Json>)
    ensures |r| == |items|
    ensures forall i :: 0 <= i < |items| ==> r[i] == ItemToJson(items[i])
  {
    seq(|items|, i requires 0 <= i < |items| => ItemToJson(items[i]))
  }

  function OrdererToJson(o: Orderer): Json {
    JObject(map[
      "name" := JString(o.name), "email" := JString(o.email),
      "phoneNumber" := JString(o.phoneNumber), "address" := JString(o.address)])
  }

  function OrderRequestToJson(r: OrderRequest): Json {
    var fields := map[
      "orderer" := OrdererToJson(r.orderer),
      "items" := JArray(ItemsToJson(r.items)),
      "totalPrice" := JNumber(r.totalPrice)];
    JObject(if r.storeName.Some? then fields["storeName" := JString(r.storeName.value)] else fields)
  }

  /** What the schemas demand beyond the shape: a known role and an
      accepted e-mail address for each item's store owner. */
  predicate UserOk(isEmail: string -> bool, u: User) {
    isEmail(u.email) && u.role in Roles
  }

  predicate ItemsOk(isEmail: string -> bool, items: seq<CartItem>) {
    forall i :: 0 <= i < |items| ==> UserOk(isEmail, items[i].store.user)
  }

  // ---------------------------------------------------------------------
  // Properties of createOrderSchema
  // ---------------------------------------------------------------------

  lemma UserRoundTrip(isEmail: string -> bool, u: User)
    requires UserOk(isEmail, u)
    ensures ParseUser(isEmail, Some(UserToJson(u))) == Some(u)
  {
  }

  lemma StoreRoundTrip(isEmail: string -> bool, s: StoreInfo)
    requires UserOk(isEmail, s.user)
    ensures ParseStore(isEmail, Some(StoreToJson(s))) == Some(s)
  {
    UserRoundTrip(isEmail, s.user);
  }

  lemma {:induction false} CategoriesRoundTrip(cs: seq<CategoryInfo>)
    ensures ParseCategories(CategoriesToJson(cs)) == Some(cs)
  {
    if |cs| > 0 {
      assert CategoriesToJson(cs)[1..] == CategoriesToJson(cs[1..]);
      CategoriesRoundTrip(cs[1..]);
      assert [cs[0]] + cs[1..] == cs;
    }
  }

  /** The item parser reads each declared field. */
  lemma ParseItemOfFields(isEmail: string -> bool, o: map<string, Json>, it: CartItem)
    requires Field(o, "id") == Some(JString(it.id))
    requires Field(o, "name") == Some(JString(it.name))
    requires Field(o, "priceBase") == Some(JNumber(it.priceBase))
    requires Field(o, "price") == Some(JNumber(it.price))
    requires Field(o, "stock") == Some(JNumber(it.stock))
    requires ParseStore(isEmail, Field(o, "store")) == Some(it.store)
    requires Field(o, "description") == Some(JString(it.description))
    requires Field(o, "imageUrl") == Some(JString(it.imageUrl))
    requires AsArray(Field(o, "categories")).Some?
    requires ParseCategories(AsArray(Field(o, "categories")).value) == Some(it.categories)
    requires Field(o, "quantity") == Some(JNumber(it.quantity))
    ensures ParseItem(isEmail, Some(JObject(o))) == Some(it)
  {
  }

  lemma ItemRoundTrip(isEmail: string -> bool, it: CartItem)
    requires UserOk(isEmail, it.store.user)
    ensures ParseItem(isEmail, Some(ItemToJson(it))) == Some(it)
  {
    StoreRoundTrip(isEmail, it.store);
    CategoriesRoundTrip(it.categories);
    ItemScalarFields(it);
    ItemNestedFields(it);
    ParseItemOfFields(isEmail, ItemToJson(it).fields, it);
  }

  lemma ItemScalarFields(it: CartItem)
    ensures var o := ItemToJson(it).fields;
      && Field(o, "id") == Some(JString(it.id))
      && Field(o, "name") == Some(JString(it.name))
      && Field(o, "priceBase") == Some(JNumber(it.priceBase))
      && Field(o, "price") == Some(JNumber(it.price))
      && Field(o, "stock") == Some(JNumber(it.stock))
      && Field(o, "quantity") == Some(JNumber(it.quantity))
  {
  }

  lemma ItemNestedFields(it: CartItem)
    ensures var o := ItemToJson(it).fields;
      && Field(o, "store") == Some(StoreToJson(it.store))
      && Field(o, "description") == Some(JString(it.description))
      && Field(o, "imageUrl") == Some(JString(it.imageUrl))
      && Field(o, "categories") == Some(JArray(CategoriesToJson(it.categories)))
  {
  }

  lemma {:induction false} ItemsRoundTrip(isEmail: string -> bool, items: seq<CartItem>)
    requires ItemsOk(isEmail, items)
    ensures ParseItems(isEmail, ItemsToJson(items)) == Some(items)
  {
    if |items| > 0 {
      ItemRoundTrip(isEmail, items[0]);
      assert ItemsToJson(items)[1..] == ItemsToJson(items[1..]);
      assert ItemsOk(isEmail, items[1..]) by {
        forall i | 0 <= i < |items[1..]| ensures UserOk(isEmail, items[1..][i].store.user) {
          assert items[1..][i] == items[i + 1];
        }
      }
      ItemsRoundTrip(isEmail, items[1..]);
      assert [items[0]] + items[1..] == items;
    }
  }

  /**
   * Every well-typed request is accepted and parsed back unchanged. No
   * constraint is placed on the store name (which may be absent), on the
   * orderer's e-mail text, on the number of items (none is fine), on
   * quantities or stock (zero and negative numbers pass) or on the total
   * (unrelated to the items).
   */
  lemma OrderRequestRoundTrip(isEmail: string -> bool, r: OrderRequest)
    requires ItemsOk(isEmail, r.items)
    ensures ParseOrderRequest(isEmail, OrderRequestToJson(r)) == Some(r)
  {
    ItemsRoundTrip(isEmail, r.items);
    OrdererRoundTrip(r.orderer);
    RequestFields(r);
    ParseRequestOfFields(isEmail, OrderRequestToJson(r).fields, r);
  }

  lemma RequestFields(r: OrderRequest)
    ensures var o := OrderRequestToJson(r).fields;
      && Field(o, "items") == Some(JArray(ItemsToJson(r.items)))
      && Field(o, "orderer") == Some(OrdererToJson(r.orderer))
      && Field(o, "totalPrice") == Some(JNumber(r.totalPrice))
      && AsOptionalString(Field(o, "storeName")) == Some(r.storeName)
  {
  }

  lemma ParseRequestOfFields(isEmail: string -> bool, o: map<string, Json>, r: OrderRequest)
    requires AsOptionalString(Field(o, "storeName")) == Some(r.storeName)
    requires ParseOrderer(Field(o, "orderer")) == Some(r.orderer)
    requires AsArray(Field(o, "items")).Some?
    requires ParseItems(isEmail, AsArray(Field(o, "items")).value) == Some(r.items)
    requires Field(o, "totalPrice") == Some(JNumber(r.totalPrice))
    ensures ParseOrderRequest(isEmail, JObject(o)) == Some(r)
  {
  }

  lemma OrdererRoundTrip(o: Orderer)
    ensures ParseOrderer(Some(OrdererToJson(o))) == Some(o)
  {
  }

  lemma {:induction false} ParsedItemsOk(isEmail: string -> bool, elems: seq<Json>)
    requires ParseItems(isEmail, elems).Some?
    ensures ItemsOk(isEmail, ParseItems(isEmail, elems).value)
  {
    if |elems| > 0 {
      var head := ParseItem(isEmail, Some(elems[0])).value;
      var tail := ParseItems(isEmail, elems[1..]).value;
      assert ParseItems(isEmail, elems).value == [head] + tail;
      ParsedItemOk(isEmail, Some(elems[0]));
      ParsedItemsOk(isEmail, elems[1..]);
      ItemsOkCons(isEmail, head, tail);
    }
  }

  lemma ParsedUserOk(isEmail: string -> bool, v: Option<Json>)
    requires ParseUser(isEmail, v).Some?
    ensures UserOk(isEmail, ParseUser(isEmail, v).value)
  {
  }

  lemma ParsedItemOk(isEmail: string -> bool, v: Option<Json>)
    requires ParseItem(isEmail, v).Some?
    ensures UserOk(isEmail, ParseItem(isEmail, v).value.store.user)
  {
    var o := AsObject(v).value;
    var sv := Field(o, "store");
    assert ParseStore(isEmail, sv).Some?;
    var so := AsObject(sv).value;
    ParsedUserOk(isEmail, Field(so, "user"));
  }

  lemma ItemsOkCons(isEmail: string -> bool, head: CartItem, tail: seq<CartItem>)
    requires UserOk(isEmail, head.store.user) && ItemsOk(isEmail, tail)
    ensures ItemsOk(isEmail, [head] + tail)
  {
    assert forall i :: 0 < i < |tail| + 1 ==> ([head] + tail)[i] == tail[i - 1];
  }

  /** Conversely, whatever is accepted is a well-typed request that encodes
      the accepted fields. */
  lemma ParsedRequestOk(isEmail: string -> bool, body: Json)
    requires ParseOrderRequest(isEmail, body).Some?
    ensures ItemsOk(isEmail, ParseOrderRequest(isEmail, body).value.items)
  {
    ParsedItemsOk(isEmail, body.fields["items"].elems);
  }

  /** A body whose orderer lacks one of its four fields is rejected. */
  lemma MissingOrdererFieldRejected(isEmail: string -> bool, body: Json, key: string)
    requires body.JObject? && "orderer" in body.fields && body.fields["orderer"].JObject?
    requires key in {"name", "email", "phoneNumber", "address"}
    requires key !in body.fields["orderer"].fields
    ensures ParseOrderRequest(isEmail, body) == None
  {
  }

  /** The store name may be left out: removing it from an accepted body
      whose store name is set leaves it accepted with no store name. */
  lemma StoreNameOptional(isEmail: string -> bool, body: Json)
    requires ParseOrderRequest(isEmail, body).Some?
    ensures ParseOrderRequest(isEmail, JObject(body.fields - {"storeName"}))
      == Some(ParseOrderRequest(isEmail, body).value.(storeName := None))
  {
    var o := body.fields;
    var o' := o - {"storeName"};
    assert Field(o', "storeName") == None;
    assert Field(o', "orderer") == Field(o, "orderer");
    assert Field(o', "items") == Field(o, "items");
    assert Field(o', "totalPrice") == Field(o, "totalPrice");
  }

  /** Keys the schema does not declare are ignored. */
  lemma UnknownKeysIgnored(isEmail: string -> bool, fields: map<string, Json>, key: string, value: Json)
    requires key !in OrderRequestKeys
    ensures ParseOrderRequest(isEmail, JObject(fields[key := value]))
      == ParseOrderRequest(isEmail, JObject(fields))
  {
    var o' := fields[key := value];
    assert Field(o', "storeName") == Field(fields, "storeName");
    assert Field(o', "orderer") == Field(fields, "orderer");
    assert Field(o', "items") == Field(fields, "items");
    assert Field(o', "totalPrice") == Field(fields, "totalPrice");
  }

  // ---------------------------------------------------------------------
  // updateOrderStatusSchema
  // ---------------------------------------------------------------------

  /** `updateOrderStatusSchema`: any string status is accepted. */
  function ParseStatusUpdate(body: Json): (r: Option<string>)
    ensures r.Some? <==> body.JObject? && "status" in body.fields && body.fields["status"].JString?
    ensures r.Some? ==> r.value == body.fields["status"].s
  {
    var o :- AsObject(Some(body));
    AsString(Field(o, "status"))
  }

  // ---------------------------------------------------------------------
  // createProductSchema and updateProductSchema (identical)
  // ---------------------------------------------------------------------

  /** `z.number().optional().nullable()` */
  datatype Nullish<T> = Undefined | Null | Defined(value: T)

  function AsNullishNumber(v: Option<Json>): Option<Nullish<int>> {
    if v.None? then Some(Undefined)
    else if v.value.JNull? then Some(Null)
    else if v.value.JNumber? then Some(Defined(v.value.n))
    else None
  }

  /** `z.array(z.string())` */
  function AsStrings(elems: seq<Json>): (r: Option<seq<string>>)
    ensures r.Some? <==> forall i :: 0 <= i < |elems| ==> elems[i].JString?
    ensures r.Some? ==>
      |r.value| == |elems| && forall i :: 0 <= i < |elems| ==> r.value[i] == elems[i].s
  {
    if |elems| == 0 then Some([])
    else if !elems[0].JString? then None
    else
      var tail :- AsStrings(elems[1..]);
      Some([elems[0].s] + tail)
  }

  datatype ProductPayload = ProductPayload(
    name: string, price: int, priceBase: int, stock: Nullish<int>, storeId: string,
    categoryIds: seq<string>, description: string, image: Option<Json>)

  /**
   * `createProductSchema` and `updateProductSchema`. Stock may be absent,
   * null or any number; the base price must be a number; the image may be
   * anything, including absent (`z.any()`).
   */
  function ParseProduct(body: Json): (r: Option<ProductPayload>)
    ensures r.Some? ==> body.JObject? && Field(body.fields, "priceBase") == Some(JNumber(r.value.priceBase))
    ensures r.Some? ==> r.value.image == Field(body.fields, "image")
  {
    var o :- AsObject(Some(body));
    var name :- AsString(Field(o, "name"));
    var price :- AsNumber(Field(o, "price"));
    var priceBase :- AsNumber(Field(o, "priceBase"));
    var stock :- AsNullishNumber(Field(o, "stock"));
    var storeId :- AsString(Field(o, "storeId"));
    var categoryElems :- AsArray(Field(o, "categoryIds"));
    var categoryIds :- AsStrings(categoryElems);
    var description :- AsString(Field(o, "description"));
    Some(ProductPayload(name, price, priceBase, stock, storeId, categoryIds, description, Field(o, "image")))
  }

  /** Replacing the stock of an accepted product body by absent, `null`
      or any number keeps it accepted, with that stock. */
  lemma ProductStockIsFree(body: Json, stock: Nullish<int>)
    requires ParseProduct(body).Some?
    ensures var fields :=
        match stock
        case Undefined => body.fields - {"stock"}
        case Null => body.fields["stock" := JNull]
        case Defined(n) => body.fields["stock" := JNumber(n)];
      ParseProduct(JObject(fields)) == Some(ParseProduct(body).value.(stock := stock))
  {
    var o := body.fields;
    var o' := match stock
      case Undefined => o - {"stock"}
      case Null => o["stock" := JNull]
      case Defined(n) => o["stock" := JNumber(n)];
    assert AsNullishNumber(Field(o', "stock")) == Some(stock);
    forall k | k != "stock" ensures Field(o', k) == Field(o, k) { }
    assert Field(o', "name") == Field(o, "name");
    assert Field(o', "price") == Field(o, "price");
    assert Field(o', "priceBase") == Field(o, "priceBase");
    assert Field(o', "storeId") == Field(o, "storeId");
    assert Field(o', "categoryIds") == Field(o, "categoryIds");
    assert Field(o', "description") == Field(o, "description");
    assert Field(o', "image") == Field(o, "image");
  }

  /** A product body whose base price is missing or not a number is
      rejected. */
  lemma ProductNeedsNumericPriceBase(body: Json)
    requires body.JObject?
    requires !(Field(body.fields, "priceBase").Some? && body.fields["priceBase"].JNumber?)
    ensures ParseProduct(body) == None
  {
  }
}
