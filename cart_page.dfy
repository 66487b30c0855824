/**
 * The cart page's checkout: the orderer input, the submit rule, the rows
 * shown, the order request it posts, the WhatsApp message it redirects to
 * and what `handleOrder` does with the server's answer.
 *
 * The input starts as `{name, phoneNumber, address}` and `handleChange`
 * sets whichever key the changed element names, so it is a map from key
 * to text. The formatter `toIDRFormat`, `encodeURI` and `location.origin`
 * are the parameters `fmt`, `encode` and `origin`.
 */
module CartPage {
  import opened Wrappers
  import opened Text
  import V = Validator
  import R = OrderRoute

  type Input = map<string, string>

  const InitialInput: Input := map["name" := "", "phoneNumber" := "", "address" := ""]

  /** `input[key]`, with a missing key read as the empty text (both are
      falsy). */
  function Value(input: Input, key: string): string {
    if key in input then input[key] else ""
  }

  /** `isSubmitDisabled` */
  predicate SubmitDisabled(input: Input, items: seq<V.CartItem>) {
    Value(input, "name") == "" || Value(input, "phoneNumber") == ""
    || Value(input, "address") == "" || |items| == 0
  }

  /** The rows the cart lists: the items with a positive quantity. */
  function DisplayedRows(items: seq<V.CartItem>): (r: seq<V.CartItem>)
    ensures forall x :: x in r <==> x in items && x.quantity > 0
    ensures |r| <= |items|
  {
    if |items| == 0 then []
    else (if items[0].quantity > 0 then [items[0]] else []) + DisplayedRows(items[1..])
  }

  /** The rows keep cart order: filtering a concatenation concatenates
      the filtered parts. */
  lemma {:induction false} DisplayedRowsConcat(a: seq<V.CartItem>, b: seq<V.CartItem>)
    ensures DisplayedRows(a + b) == DisplayedRows(a) + DisplayedRows(b)
    decreases |a|
  {
    if |a| == 0 {
      assert a + b == b;
    } else {
      var head := if a[0].quantity > 0 then [a[0]] else [];
      assert (a + b)[0] == a[0];
      assert (a + b)[1..] == a[1..] + b;
      assert DisplayedRows(a + b) == head + DisplayedRows(a[1..] + b);
      assert DisplayedRows(a) == head + DisplayedRows(a[1..]);
      DisplayedRowsConcat(a[1..], b);
      RowsRegroup(head, DisplayedRows(a[1..]), DisplayedRows(b));
    }
  }

  lemma RowsRegroup(x: seq<V.CartItem>, y: seq<V.CartItem>, z: seq<V.CartItem>)
    ensures x + (y + z) == (x + y) + z
  {
  }

  // ---------------------------------------------------------------------
  // The order request
  // ---------------------------------------------------------------------

  /** The input as the JSON object sent as `orderer`. */
  function InputJson(input: Input): V.Json {
    V.JObject(map k | k in input :: V.JString(input[k]))
  }

  /** `createOrder`'s request: the store name of the page, every cart item
      (shown or not), the cart's total and the input as the orderer. */
  function OrderRequest(storeName: string, items: seq<V.CartItem>, total: int, input: Input): (r: V.Json)
    ensures r.JObject? && r.fields.Keys == {"storeName", "items", "totalPrice", "orderer"}
    ensures r.fields["orderer"].JObject? && r.fields["orderer"].fields.Keys == input.Keys
  {
    V.JObject(map[
      "storeName" := V.JString(storeName),
      "items" := V.JArray(V.ItemsToJson(items)),
      "totalPrice" := V.JNumber(total),
      "orderer" := InputJson(input)])
  }

  const OrdererKeys: set<string> := {"name", "email", "phoneNumber", "address"}

  lemma InputAsOrderer(input: Input)
    requires OrdererKeys <= input.Keys
    ensures V.ParseOrderer(Some(InputJson(input)))
      == Some(V.Orderer(input["name"], input["email"], input["phoneNumber"], input["address"]))
  {
    var o := InputJson(input).fields;
    assert V.Field(o, "name") == Some(V.JString(input["name"]));
    assert V.Field(o, "email") == Some(V.JString(input["email"]));
    assert V.Field(o, "phoneNumber") == Some(V.JString(input["phoneNumber"]));
    assert V.Field(o, "address") == Some(V.JString(input["address"]));
  }

  /**
   * What the order schema makes of the request: with an input holding
   * the four orderer keys it is accepted and carries exactly the page's
   * store name, the cart items, the cart total and the input's values;
   * with any of them missing (the initial input has no `email`) it is
   * rejected.
   */
  lemma RequestAcceptance(isEmail: string -> bool, storeName: string, items: seq<V.CartItem>, total: int, input: Input)
    requires V.ItemsOk(isEmail, items)
    ensures V.ParseOrderRequest(isEmail, OrderRequest(storeName, items, total, input)) ==
      if OrdererKeys <= input.Keys then
        Some(V.OrderRequest(Some(storeName),
          V.Orderer(input["name"], input["email"], input["phoneNumber"], input["address"]),
          items, total))
      else None
  {
    var body := OrderRequest(storeName, items, total, input);
    var o := body.fields;
    assert V.Field(o, "orderer") == Some(InputJson(input));
    if OrdererKeys <= input.Keys {
      InputAsOrderer(input);
      V.ItemsRoundTrip(isEmail, items);
      assert V.Field(o, "storeName") == Some(V.JString(storeName));
      assert V.Field(o, "items") == Some(V.JArray(V.ItemsToJson(items)));
      assert V.Field(o, "totalPrice") == Some(V.JNumber(total));
    } else {
      var key :| key in OrdererKeys && key !in input.Keys;
      V.MissingOrdererFieldRejected(isEmail, body, key);
    }
  }

  /** The submit button can be enabled for a request the server refuses:
      the initial input filled in has no `email`. */
  lemma EnabledSubmitCanBeRefused(isEmail: string -> bool, storeName: string, items: seq<V.CartItem>, total: int)
    requires |items| > 0
    ensures var input := InitialInput["name" := "Budi"]["phoneNumber" := "08123456789"]["address" := "Bandung"];
      !SubmitDisabled(input, items)
      && V.ParseOrderRequest(isEmail, OrderRequest(storeName, items, total, input)) == None
  {
    var input := InitialInput["name" := "Budi"]["phoneNumber" := "08123456789"]["address" := "Bandung"];
    assert "email" !in input;
    V.MissingOrdererFieldRejected(isEmail, OrderRequest(storeName, items, total, input), "email");
  }

  // ---------------------------------------------------------------------
  // The WhatsApp message
  // ---------------------------------------------------------------------

  const WaPrefix := "https://wa.me/+6285723087803?text="

  /** The message's entry for item `number`. */
  function WaEntry(fmt: int -> string, number: nat, item: V.CartItem): string {
    "\n" + NatToDecimal(number) + EntryDetails(fmt, item)
  }

  /** What follows an entry's number: name, quantity, unit price and the
      line total. */
  function EntryDetails(fmt: int -> string, item: V.CartItem): string {
    ". *" + item.name + "*"
    + "\n      Quantity: " + IntToDecimal(item.quantity)
    + "\n      Harga (@): " + fmt(item.price)
    + TotalLine(fmt, item)
  }

  function TotalLine(fmt: int -> string, item: V.CartItem): string {
    "\n      Total Harga: " + fmt(item.price * item.quantity)
  }

  /** One entry per cart item, numbered from 1 in cart order. */
  function WaEntries(fmt: int -> string, items: seq<V.CartItem>): (r: seq<string>)
    ensures |r| == |items|
  {
    seq(|items|, i requires 0 <= i < |items| => WaEntry(fmt, i + 1, items[i]))
  }

  /** The WhatsApp message: the greeting, then the entries, and last the
      page's origin. */
  function WaText(fmt: int -> string, items: seq<V.CartItem>, total: int, input: Input, origin: string): (r: string)
    ensures StartsWith(r, "Assalamualaikum, saya mau order.\n    " + Join(WaEntries(fmt, items), " "))
    ensures |r| >= |origin| + 5 && r[|r| - |origin| - 5..] == "\nVia " + origin
  {
    var greeting := "Assalamualaikum, saya mau order.\n    " + Join(WaEntries(fmt, items), " ");
    var middle := "\n\nTotal : *" + fmt(total) + "*"
      + "\n\n*Pengiriman* : " + Value(input, "address") + "\n"
      + "--------------------------------"
      + "\n*Nama :*"
      + "\n" + Value(input, "name") + " ( " + Value(input, "phoneNumber") + " )"
      + "\n\n*Alamat :*"
      + "\n" + Value(input, "address");
    var via := "\nVia " + origin;
    FramedText(greeting, middle, via);
    greeting + middle + via
  }

  lemma FramedText(head: string, middle: string, tail: string)
    ensures StartsWith(head + middle + tail, head)
    ensures (head + middle + tail)[|head + middle + tail| - |tail|..] == tail
  {
    assert (head + middle + tail)[..|head|] == head;
  }

  /** The WhatsApp link: the shop's chat prefix followed by the encoded
      message and nothing else. */
  function WaUrl(encode: string -> string, text: string): (r: string)
    ensures StartsWith(r, WaPrefix) && r[|WaPrefix|..] == encode(text)
  {
    WaPrefix + encode(text)
  }

  /**
   * Every cart item, including those of quantity 0, has an entry; entry
   * `k` is about item `k`, shows its line total price times quantity, and
   * the number it starts with reads back as `k + 1`.
   */
  lemma WaEntriesNumbered(fmt: int -> string, items: seq<V.CartItem>, k: nat)
    requires k < |items|
    ensures |WaEntries(fmt, items)| == |items|
    ensures StartsWith(WaEntries(fmt, items)[k], "\n")
    ensures ParseInt(WaEntries(fmt, items)[k][1..]) == Some(k + 1)
    ensures Contains(WaEntries(fmt, items)[k], "\n      Total Harga: " + fmt(items[k].price * items[k].quantity))
  {
    var num := NatToDecimal(k + 1);
    var details := EntryDetails(fmt, items[k]);
    var e := WaEntries(fmt, items)[k];
    assert e == "\n" + num + details;
    EntryNumber(num, details);
    assert details[0] == '.';
    ParseIntOfDecimal(k + 1, details);
    EntryShowsTotal(fmt, items[k]);
    ContainsConcat("\n" + num, details, TotalLine(fmt, items[k]));
  }

  lemma EntryNumber(num: string, details: string)
    ensures StartsWith("\n" + num + details, "\n")
    ensures ("\n" + num + details)[1..] == num + details
  {
  }

  lemma EntryShowsTotal(fmt: int -> string, item: V.CartItem)
    ensures Contains(EntryDetails(fmt, item), TotalLine(fmt, item))
  {
    var t := TotalLine(fmt, item);
    assert StartsWith(t, t);
    var before := ". *" + item.name + "*"
      + "\n      Quantity: " + IntToDecimal(item.quantity)
      + "\n      Harga (@): " + fmt(item.price);
    ContainsConcat(before, t, t);
  }

  // ---------------------------------------------------------------------
  // handleOrder
  // ---------------------------------------------------------------------

  const DefaultError := "Gagal membuat pesanan. Silahkan coba lagi."

  /** The toast text for a server error: the server's message when it
      mentions "out of stock", the generic text otherwise. */
  function ErrorMessage(serverError: string): (r: string)
    ensures (exists i: nat :: OccursAt(serverError, "out of stock", i)) ==> r == serverError
    ensures !(exists i: nat :: OccursAt(serverError, "out of stock", i)) ==> r == DefaultError
  {
    ContainsAt(serverError, "out of stock");
    if Contains(serverError, "out of stock") then serverError else DefaultError
  }

  /** The route's out-of-stock message reaches the customer. */
  lemma OutOfStockShown(name: string)
    ensures ErrorMessage(R.OutOfStock(name)) == R.OutOfStock(name)
  {
    var tail := " out of stock";
    assert StartsWith(tail[1..], "out of stock");
    assert Contains(tail, "out of stock");
    ContainsConcat("Product " + name, tail, "out of stock");
  }

  /** The route's missing-product message does not: the customer sees the
      generic text. */
  lemma ProductMissingHidden()
    ensures ErrorMessage(R.ProductMissing) == DefaultError
  {
    var s := R.ProductMissing;
    var needle := "out of stock";
    assert needle[11] == 'k';
    assert forall i :: 0 <= i < |s| ==> s[i] != 'k';
    MissingCharNotContained(s, needle, 11);
  }

  /** The request succeeded: axios resolves on a 2xx status. */
  predicate Accepted(response: Option<R.Response>) {
    response.Some? && 200 <= response.value.status < 300
  }

  /**
   * The toasts a failed request shows. A rejection whose body carries a
   * text error gets one toast. A validation rejection carries the error
   * object rather than a text, and a request with no response carries no
   * body; reading the error text then throws inside the handler and no
   * toast is shown.
   */
  function ToastsFor(response: Option<R.Response>): (r: seq<string>)
    ensures |r| <= 1
    ensures Accepted(response) ==> r == []
  {
    if response.Some? && !Accepted(response) && response.value.body.Failure? then
      [ErrorMessage(response.value.body.error)]
    else []
  }

  /** The checkout page: the cart lines and input it holds, the requests
      it posted, the toasts it showed and where it sent the browser. */
  class Checkout {
    const storeName: string
    var items: seq<V.CartItem>
    var input: Input
    var sent: seq<V.Json>
    var toasts: seq<string>
    var location: Option<string>

    constructor (storeName: string, items: seq<V.CartItem>)
      ensures this.storeName == storeName && this.items == items
      ensures input == InitialInput && sent == [] && toasts == [] && location == None
    {
      this.storeName := storeName;
      this.items := items;
      input := InitialInput;
      sent := [];
      toasts := [];
      location := None;
    }

    /** `handleChange`: the named key takes the value, every other key
        keeps its value. */
    method HandleChange(key: string, value: string)
      modifies this`input
      ensures input == old(input)[key := value]
    {
      input := input[key := value];
    }

    /**
     * `handleOrder`, given the answer `response` to the request it posts
     * (`None` when no answer came). Only an accepted request clears the
     * cart and redirects, with a message built from the items as they
     * were before the cart was cleared; otherwise the cart and the
     * location are untouched and the failure's toasts are shown.
     */
    method HandleOrder(total: int, fmt: int -> string, encode: string -> string,
                       origin: string, response: Option<R.Response>)
      modifies this`items, this`sent, this`toasts, this`location
      ensures sent == old(sent) + [OrderRequest(storeName, old(items), total, input)]
      ensures Accepted(response) ==>
        && items == []
        && location == Some(WaUrl(encode, WaText(fmt, old(items), total, input, origin)))
        && toasts == old(toasts)
      ensures !Accepted(response) ==>
        && items == old(items)
        && location == old(location)
        && toasts == old(toasts) + ToastsFor(response)
    {
      var cartItems := items;
      sent := sent + [OrderRequest(storeName, cartItems, total, input)];
      assert sent == old(sent) + [OrderRequest(storeName, old(items), total, input)];
      if Accepted(response) {
        items := [];
        location := Some(WaUrl(encode, WaText(fmt, cartItems, total, input, origin)));
      } else {
        toasts := toasts + ToastsFor(response);
      }
    }
  }

  /**
   * Checkout against the order route: with no `email` in the input the
   * route answers 400 and writes nothing, and the page then shows no
   * toast and keeps the cart.
   */
  lemma CheckoutWithoutEmail(t: R.Tables, stores: seq<R.Store>, isEmail: string -> bool, mail: R.Mail,
                             storeName: string, items: seq<V.CartItem>, total: int, input: Input)
    requires "email" !in input
    ensures var answer := R.Outcome(t, stores, isEmail, OrderRequest(storeName, items, total, input), mail);
      && answer == (R.Response(400, R.ValidationError), t)
      && !Accepted(Some(answer.0)) && ToastsFor(Some(answer.0)) == []
  {
    V.MissingOrdererFieldRejected(isEmail, OrderRequest(storeName, items, total, input), "email");
  }

  /** A second e-mail event refused after the commit: the route has stored
      the order, yet the page is answered 500, keeps the cart and shows an
      error toast. */
  lemma CommittedOrderShownAsFailed(t: R.Tables, stores: seq<R.Store>, isEmail: string -> bool,
                                    body: V.Json, mail: R.Mail)
    requires R.Commits(t, stores, isEmail, body, mail) && mail.second.Some?
    ensures var answer := R.Outcome(t, stores, isEmail, body, mail);
      && |answer.1.orders| == |t.orders| + 1
      && !Accepted(Some(answer.0))
      && ToastsFor(Some(answer.0)) == [ErrorMessage(mail.second.value)]
  {
    R.SecondSendFailsAfterCommit(t, stores, isEmail, body, mail);
  }

  /** A stock failure reaches the page as a toast that names the product. */
  lemma CheckoutOutOfStock(name: string)
    ensures ToastsFor(Some(R.Response(500, R.Failure(R.OutOfStock(name))))) == [R.OutOfStock(name)]
  {
    var response := Some(R.Response(500, R.Failure(R.OutOfStock(name))));
    assert !Accepted(response);
    assert ToastsFor(response) == [ErrorMessage(R.OutOfStock(name))];
    OutOfStockShown(name);
  }
}
