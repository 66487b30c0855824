/**
 * The admin hook that edits a product: `handleEdit` loads a product into
 * the edit form and opens the editor, `handleEditClose` resets the form
 * and closes it, and `handleUpdateProduct` builds a multipart form from a
 * request by successive appends, sends it as a PATCH to the product of
 * the edit form, and then either refreshes the list and closes the editor
 * or shows an error toast.
 *
 * The hook's effects (the PATCH, the list refresh, the close and the
 * toasts) are recorded in order in `effects`; the PATCH's answer is a
 * parameter.
 */
module UpdateProduct {
  import opened Wrappers
  import opened Text
  import ProductInput

  datatype EditRequest = EditRequest(
    id: string, name: string, price: int, priceBase: int, stock: int,
    storeId: string, categoryIds: seq<string>, description: string,
    imageUrl: string, image: Option<ProductInput.FileRef>)

  const InitForm := EditRequest("", "", 0, 0, 0, "", [], "", "", None)

  datatype StoreRef = StoreRef(id: string, name: string)
  datatype CategoryRef = CategoryRef(id: string, name: string)
  /** A product as the product list holds it. */
  datatype Product = Product(
    id: string, name: string, stock: int, priceBase: int, price: int,
    store: StoreRef, categories: seq<CategoryRef>, description: string, imageUrl: string)

  /** The edit form `handleEdit` builds from a product: its fields, its
      store's id and its categories' ids in order; no new image. */
  function EditFromProduct(p: Product): (r: EditRequest)
    ensures r.id == p.id && r.name == p.name && r.stock == p.stock
    ensures r.priceBase == p.priceBase && r.price == p.price
    ensures r.storeId == p.store.id
    ensures |r.categoryIds| == |p.categories|
    ensures forall i :: 0 <= i < |p.categories| ==> r.categoryIds[i] == p.categories[i].id
    ensures r.description == p.description && r.imageUrl == p.imageUrl && r.image == None
  {
    EditRequest(p.id, p.name, p.price, p.priceBase, p.stock, p.store.id,
                seq(|p.categories|, i requires 0 <= i < |p.categories| => p.categories[i].id),
                p.description, p.imageUrl, None)
  }

  // ---------------------------------------------------------------------
  // JSON.stringify of the category ids
  // ---------------------------------------------------------------------

  function HexDigit(d: nat): (c: char)
    requires d < 16
    ensures DigitValue(c) == d
  {
    "0123456789abcdef"[d]
  }

  /** One character as `JSON.stringify` writes it inside a string. */
  function EscapeChar(c: char): string {
    if c == '"' then "\\\""
    else if c == '\\' then "\\\\"
    else if c == '\U{8}' then "\\b"
    else if c == '\U{C}' then "\\f"
    else if c == '\n' then "\\n"
    else if c == '\r' then "\\r"
    else if c == '\t' then "\\t"
    else if (c as int) < 0x20 then "\\u00" + [HexDigit(c as int / 16), HexDigit(c as int % 16)]
    else [c]
  }

  function Escape(s: string): string
    decreases |s|
  {
    if |s| == 0 then "" else EscapeChar(s[0]) + Escape(s[1..])
  }

  function Quote(s: string): string {
    "\"" + Escape(s) + "\""
  }

  function Quoted(ids: seq<string>): (r: seq<string>)
    ensures |r| == |ids|
  {
    seq(|ids|, i requires 0 <= i < |ids| => Quote(ids[i]))
  }

  /** `JSON.stringify(ids)` for an array of strings. */
  function StringifyIds(ids: seq<string>): string {
    "[" + Join(Quoted(ids), ",") + "]"
  }

  /** The character an escape stands for, given the text after the
      backslash, and how many characters of it the escape takes. */
  function Unescape(t: string): (r: Option<(char, nat)>)
    ensures r.Some? ==> 1 <= r.value.1 <= |t|
  {
    if |t| == 0 then None
    else if t[0] == '"' then Some(('"', 1))
    else if t[0] == '\\' then Some(('\\', 1))
    else if t[0] == '/' then Some(('/', 1))
    else if t[0] == 'b' then Some(('\U{8}', 1))
    else if t[0] == 'f' then Some(('\U{C}', 1))
    else if t[0] == 'n' then Some(('\n', 1))
    else if t[0] == 'r' then Some(('\r', 1))
    else if t[0] == 't' then Some(('\t', 1))
    else if t[0] == 'u' && |t| >= 5
      && IsDigitIn(t[1], 16) && IsDigitIn(t[2], 16) && IsDigitIn(t[3], 16) && IsDigitIn(t[4], 16) then
      var v := ((DigitValue(t[1]) * 16 + DigitValue(t[2])) * 16 + DigitValue(t[3])) * 16 + DigitValue(t[4]);
      if 0xD800 <= v < 0xE000 then None else Some((v as char, 5))
    else None
  }

  /** Reads a string's contents up to its closing quote: the text and
      what follows the quote. */
  function DecodeChars(s: string): (r: Option<(string, string)>)
    ensures r.Some? ==> |r.value.1| < |s|
    decreases |s|
  {
    if |s| == 0 then None
    else if s[0] == '"' then Some(("", s[1..]))
    else if s[0] == '\\' then
      var e :- Unescape(s[1..]);
      var tail :- DecodeChars(s[1 + e.1..]);
      Some(([e.0] + tail.0, tail.1))
    else if (s[0] as int) < 0x20 then None
    else
      var tail :- DecodeChars(s[1..]);
      Some(([s[0]] + tail.0, tail.1))
  }

  /** Reads the elements of a non-empty array of strings, starting after
      the first opening quote. */
  function DecodeElements(s: string): Option<seq<string>>
    decreases |s|
  {
    var first :- DecodeChars(s);
    var rest := first.1;
    if rest == "]" then Some([first.0])
    else if |rest| >= 2 && rest[0] == ',' && rest[1] == '"' then
      var more :- DecodeElements(rest[2..]);
      Some([first.0] + more)
    else None
  }

  /** `JSON.parse` of a compact array of strings. */
  function DecodeIds(s: string): Option<seq<string>> {
    if s == "[]" then Some([])
    else if |s| >= 2 && s[0] == '[' && s[1] == '"' then DecodeElements(s[2..])
    else None
  }

  lemma UnescapeOfEscape(c: char, rest: string)
    requires |EscapeChar(c)| > 1
    ensures EscapeChar(c)[0] == '\\'
    ensures Unescape(EscapeChar(c)[1..] + rest) == Some((c, |EscapeChar(c)| - 1))
  {
    var t := EscapeChar(c)[1..] + rest;
    if !(c == '"' || c == '\\' || c == '\U{8}' || c == '\U{C}' || c == '\n' || c == '\r' || c == '\t') {
      var hi := c as int / 16;
      var lo := c as int % 16;
      assert t[0] == 'u' && t[1] == '0' && t[2] == '0';
      assert t[3] == HexDigit(hi) && t[4] == HexDigit(lo);
      assert ((0 * 16 + 0) * 16 + hi) * 16 + lo == c as int;
    }
  }

  lemma DecodeCharsPlain(c: char, after: string, r: (string, string))
    requires EscapeChar(c) == [c]
    requires DecodeChars(after) == Some(r)
    ensures DecodeChars([c] + after) == Some(([c] + r.0, r.1))
  {
    var w := [c] + after;
    assert w[0] == c && w[1..] == after;
  }

  lemma DecodeCharsEscaped(c: char, e: string, after: string, r: (string, string))
    requires |e| > 1 && e[0] == '\\'
    requires Unescape(e[1..] + after) == Some((c, |e| - 1))
    requires DecodeChars(after) == Some(r)
    ensures DecodeChars(e + after) == Some(([c] + r.0, r.1))
  {
    var w := e + after;
    assert w[0] == '\\';
    assert w[1..] == e[1..] + after;
    assert w[1 + (|e| - 1)..] == after;
  }

  /** Reading one escaped character, then the rest. */
  lemma DecodeCharsStep(c: char, after: string, r: (string, string))
    requires DecodeChars(after) == Some(r)
    ensures DecodeChars(EscapeChar(c) + after) == Some(([c] + r.0, r.1))
  {
    if |EscapeChar(c)| == 1 {
      DecodeCharsPlain(c, after, r);
    } else {
      UnescapeOfEscape(c, after);
      DecodeCharsEscaped(c, EscapeChar(c), after, r);
    }
  }

  lemma DecodeCharsOfQuote(rest: string)
    ensures DecodeChars(Escape("") + "\"" + rest) == Some(("", rest))
  {
    var w := Escape("") + "\"" + rest;
    assert w == "\"" + rest;
    assert w[1..] == rest;
  }

  lemma DecodeCharsOfCons(s: string, rest: string)
    requires |s| > 0
    requires DecodeChars(Escape(s[1..]) + "\"" + rest) == Some((s[1..], rest))
    ensures DecodeChars(Escape(s) + "\"" + rest) == Some((s, rest))
  {
    var after := Escape(s[1..]) + "\"" + rest;
    assert Escape(s) + "\"" + rest == EscapeChar(s[0]) + after by {
      ConcatAssoc(EscapeChar(s[0]), Escape(s[1..]), "\"" + rest);
    }
    HeadTail(s);
    DecodeCharsStep(s[0], after, (s[1..], rest));
  }

  lemma {:induction false} DecodeCharsOfEscape(s: string, rest: string)
    ensures DecodeChars(Escape(s) + "\"" + rest) == Some((s, rest))
    decreases |s|
  {
    if |s| == 0 {
      DecodeCharsOfQuote(rest);
    } else {
      DecodeCharsOfEscape(s[1..], rest);
      DecodeCharsOfCons(s, rest);
    }
  }

  /** What follows the first element's opening quote. */
  function ElementsText(ids: seq<string>): string
    requires |ids| > 0
  {
    Join(Quoted(ids), ",") + "]"
  }

  lemma Regroup(x: string, a: string, y: string, z: string)
    ensures x + a + y + z == x + (a + y + z)
  {
  }

  lemma ElementsTextSplit(ids: seq<string>)
    requires |ids| > 0
    ensures ElementsText(ids) == "\"" + (Escape(ids[0]) + "\"" +
      (if |ids| == 1 then "]" else "," + ElementsText(ids[1..])))
  {
    if |ids| == 1 {
      ElementsTextOne(ids);
    } else {
      ElementsTextMore(ids);
    }
  }

  lemma ElementsTextOne(ids: seq<string>)
    requires |ids| == 1
    ensures ElementsText(ids) == "\"" + (Escape(ids[0]) + "\"" + "]")
  {
    var q := Quoted(ids);
    var a := Escape(ids[0]);
    assert q[0] == "\"" + a + "\"";
    assert Join(q, ",") == q[0];
    Regroup("\"", a, "\"", "]");
  }

  lemma ElementsTextMore(ids: seq<string>)
    requires |ids| > 1
    ensures ElementsText(ids) == "\"" + (Escape(ids[0]) + "\"" + ("," + ElementsText(ids[1..])))
  {
    var q := Quoted(ids);
    var more := Join(Quoted(ids[1..]), ",");
    QuotedTail(ids);
    assert Join(q, ",") == q[0] + "," + more;
    assert ElementsText(ids) == q[0] + "," + more + "]";
    QuotedShape(Escape(ids[0]), more);
  }

  lemma QuotedTail(ids: seq<string>)
    requires |ids| > 0
    ensures Quoted(ids)[1..] == Quoted(ids[1..])
  {
  }

  lemma QuotedShape(a: string, more: string)
    ensures ("\"" + a + "\"") + "," + more + "]" == "\"" + (a + "\"" + ("," + (more + "]")))
  {
  }

  lemma DecodeElementsStep(s: string, first: string, rest: string, more: seq<string>)
    requires DecodeChars(s) == Some((first, rest))
    requires |rest| >= 2 && rest[0] == ',' && rest[1] == '"'
    requires DecodeElements(rest[2..]) == Some(more)
    ensures DecodeElements(s) == Some([first] + more)
  {
  }

  lemma DecodeElementsLast(s: string, first: string)
    requires DecodeChars(s) == Some((first, "]"))
    ensures DecodeElements(s) == Some([first])
  {
  }

  lemma {:induction false} DecodeElementsOfText(ids: seq<string>)
    requires |ids| > 0
    ensures ElementsText(ids)[0] == '"'
    ensures DecodeElements(ElementsText(ids)[1..]) == Some(ids)
    decreases |ids|
  {
    if |ids| == 1 {
      DecodeElementsOne(ids);
    } else {
      DecodeElementsOfText(ids[1..]);
      DecodeElementsCons(ids);
    }
  }

  lemma AfterQuote(body: string)
    ensures ("\"" + body)[0] == '"' && ("\"" + body)[1..] == body
  {
  }

  lemma DecodeElementsOne(ids: seq<string>)
    requires |ids| == 1
    ensures ElementsText(ids)[0] == '"'
    ensures DecodeElements(ElementsText(ids)[1..]) == Some(ids)
  {
    ElementsTextOne(ids);
    var body := Escape(ids[0]) + "\"" + "]";
    AfterQuote(body);
    DecodeCharsOfEscape(ids[0], "]");
    DecodeElementsLast(body, ids[0]);
    assert [ids[0]] == ids;
  }

  lemma DecodeElementsCons(ids: seq<string>)
    requires |ids| > 1
    requires ElementsText(ids[1..])[0] == '"'
    requires DecodeElements(ElementsText(ids[1..])[1..]) == Some(ids[1..])
    ensures ElementsText(ids)[0] == '"'
    ensures DecodeElements(ElementsText(ids)[1..]) == Some(ids)
  {
    ElementsTextMore(ids);
    var next := ElementsText(ids[1..]);
    var rest := "," + next;
    var body := Escape(ids[0]) + "\"" + rest;
    AfterQuote(body);
    DecodeCharsOfEscape(ids[0], rest);
    assert rest[1] == '"' && rest[2..] == next[1..];
    DecodeElementsStep(body, ids[0], rest, ids[1..]);
    assert [ids[0]] + ids[1..] == ids;
  }

  lemma StringifyIdsRoundTrip(ids: seq<string>)
    ensures DecodeIds(StringifyIds(ids)) == Some(ids)
  {
    if |ids| == 0 {
      assert StringifyIds(ids) == "[]";
    } else {
      var s := StringifyIds(ids);
      assert s == "[" + ElementsText(ids);
      DecodeElementsOfText(ids);
      assert s[1] == '"';
      assert s[2..] == ElementsText(ids)[1..];
      assert s != "[]" by {
        ElementsTextSplit(ids);
        assert |s| > 2;
      }
    }
  }

  // ---------------------------------------------------------------------
  // The form
  // ---------------------------------------------------------------------

  datatype FormValue = Text(text: string) | File(file: ProductInput.FileRef)
  datatype Entry = Entry(key: string, value: FormValue)

  /** A multipart form: its entries in the order they were appended. */
  class FormData {
    var entries: seq<Entry>

    constructor ()
      ensures entries == []
    {
      entries := [];
    }

    method Append(key: string, value: FormValue)
      modifies this
      ensures entries == old(entries) + [Entry(key, value)]
    {
      entries := entries + [Entry(key, value)];
    }
  }

  /** The entries `handleUpdateProduct` appends for a request. */
  function FormEntries(r: EditRequest): seq<Entry> {
    NameAndPrice(r) + StockEntry(r) + StoreCategoriesDescription(r) + ImageEntry(r)
  }

  function NameAndPrice(r: EditRequest): seq<Entry> {
    [Entry("name", Text(r.name)), Entry("price", Text(IntToDecimal(r.price)))]
  }

  /** A stock of 0 is falsy and is not sent. */
  function StockEntry(r: EditRequest): seq<Entry> {
    if r.stock != 0 then [Entry("stock", Text(IntToDecimal(r.stock)))] else []
  }

  function StoreCategoriesDescription(r: EditRequest): seq<Entry> {
    [Entry("storeId", Text(r.storeId)),
     Entry("categoryIds", Text(StringifyIds(r.categoryIds))),
     Entry("description", Text(r.description))]
  }

  function ImageEntry(r: EditRequest): seq<Entry> {
    if r.image.Some? then [Entry("image", File(r.image.value))] else []
  }

  function Keys(entries: seq<Entry>): (r: seq<string>)
    ensures |r| == |entries|
  {
    seq(|entries|, i requires 0 <= i < |entries| => entries[i].key)
  }

  lemma KeysConcat(a: seq<Entry>, b: seq<Entry>)
    ensures Keys(a + b) == Keys(a) + Keys(b)
  {
    assert forall i :: 0 <= i < |a + b| ==> Keys(a + b)[i] == (Keys(a) + Keys(b))[i];
  }

  /**
   * The form's keys are, in order, name, price, stock only when the stock
   * is not 0, storeId, categoryIds, description, and image only when a
   * file was picked; `priceBase` is never sent.
   */
  lemma FormEntriesKeys(r: EditRequest)
    ensures Keys(FormEntries(r)) == FormKeys(r.stock != 0, r.image.Some?)
    ensures "priceBase" !in Keys(FormEntries(r))
    ensures "stock" in Keys(FormEntries(r)) <==> r.stock != 0
    ensures "image" in Keys(FormEntries(r)) <==> r.image.Some?
  {
    FormEntriesKeyOrder(r);
    FormKeysMembers(r.stock != 0, r.image.Some?);
  }

  /** The key order, depending on whether stock and image are sent. */
  function FormKeys(withStock: bool, withImage: bool): seq<string> {
    ["name", "price"] + (if withStock then ["stock"] else [])
    + ["storeId", "categoryIds", "description"] + (if withImage then ["image"] else [])
  }

  lemma FormKeysMembers(withStock: bool, withImage: bool)
    ensures "priceBase" !in FormKeys(withStock, withImage)
    ensures "stock" in FormKeys(withStock, withImage) <==> withStock
    ensures "image" in FormKeys(withStock, withImage) <==> withImage
  {
  }

  lemma FormEntriesKeyOrder(r: EditRequest)
    ensures Keys(FormEntries(r)) == FormKeys(r.stock != 0, r.image.Some?)
  {
    var a := NameAndPrice(r);
    var b := StockEntry(r);
    var c := StoreCategoriesDescription(r);
    var d := ImageEntry(r);
    KeysConcat(a + b + c, d);
    KeysConcat(a + b, c);
    KeysConcat(a, b);
    assert Keys(a) == ["name", "price"];
    assert Keys(b) == if r.stock != 0 then ["stock"] else [];
    assert Keys(c) == ["storeId", "categoryIds", "description"];
    assert Keys(d) == if r.image.Some? then ["image"] else [];
  }

  /** The price is sent as its decimal text, which reads back as the
      price. */
  lemma FormPriceReadable(r: EditRequest)
    ensures FormEntries(r)[1] == Entry("price", Text(IntToDecimal(r.price)))
    ensures ParseInt(FormEntries(r)[1].value.text) == Some(r.price)
  {
    var t := IntToDecimal(r.price);
    assert FormEntries(r)[1].value.text == t;
    assert t == t + "";
    ParseIntOfDecimal(r.price, "");
  }

  /** The category ids are sent as JSON that reads back as the ids. */
  lemma FormCategoryIdsReadable(r: EditRequest)
    ensures var i := if r.stock != 0 then 4 else 3;
      && i < |FormEntries(r)|
      && FormEntries(r)[i] == Entry("categoryIds", Text(StringifyIds(r.categoryIds)))
      && DecodeIds(FormEntries(r)[i].value.text) == Some(r.categoryIds)
  {
    StringifyIdsRoundTrip(r.categoryIds);
  }

  /** The form data `handleUpdateProduct` builds, by successive appends. */
  method BuildForm(r: EditRequest) returns (form: FormData)
    ensures fresh(form)
    ensures form.entries == FormEntries(r)
  {
    form := new FormData();
    form.Append("name", Text(r.name));
    form.Append("price", Text(IntToDecimal(r.price)));
    assert form.entries == NameAndPrice(r);
    if r.stock != 0 {
      form.Append("stock", Text(IntToDecimal(r.stock)));
    }
    assert form.entries == NameAndPrice(r) + StockEntry(r);
    ghost var before := form.entries;
    form.Append("storeId", Text(r.storeId));
    form.Append("categoryIds", Text(StringifyIds(r.categoryIds)));
    form.Append("description", Text(r.description));
    assert form.entries == before + StoreCategoriesDescription(r);
    before := form.entries;
    if r.image.Some? {
      form.Append("image", File(r.image.value));
    }
    assert form.entries == before + ImageEntry(r);
  }

  // ---------------------------------------------------------------------
  // The hook
  // ---------------------------------------------------------------------

  const ImageNameTaken := "Image name is already exist. Please use another image."

  /** The toast text for a failed update: the image-name text when the
      server's error mentions "resource already exist", the request error's
      own message otherwise. */
  function ErrorDescription(serverError: string, message: string): (r: string)
    ensures (exists i: nat :: OccursAt(serverError, "resource already exist", i)) ==> r == ImageNameTaken
    ensures !(exists i: nat :: OccursAt(serverError, "resource already exist", i)) ==> r == message
  {
    ContainsAt(serverError, "resource already exist");
    if Contains(serverError, "resource already exist") then ImageNameTaken else message
  }

  /** The answer to the PATCH: accepted, or rejected with the error text
      of the response body (`None` when there is none to read, in which
      case reading it throws and no toast is shown) and the request
      error's message. */
  datatype PatchAnswer = Accepted | Rejected(serverError: Option<string>, message: string)

  datatype Effect =
    | Patch(url: string, form: seq<Entry>)
    | FetchProducts
    | Close
    | Toast(description: string)

  function ProductUrl(id: string): string {
    "/api/products/" + id
  }

  /** The effects of `handleUpdateProduct` after its PATCH. */
  function AfterPatch(answer: PatchAnswer): (r: seq<Effect>)
    ensures answer.Accepted? <==> FetchProducts in r
    ensures answer.Accepted? <==> Close in r
    ensures answer.Accepted? ==> forall e :: e in r ==> !e.Toast?
  {
    match answer
    case Accepted => [FetchProducts, Close]
    case Rejected(serverError, message) =>
      if serverError.Some? then [Toast(ErrorDescription(serverError.value, message))] else []
  }

  class EditProductHook {
    var currentEditForm: EditRequest
    var isOpen: bool
    var effects: seq<Effect>

    constructor ()
      ensures currentEditForm == InitForm && !isOpen && effects == []
    {
      currentEditForm := InitForm;
      isOpen := false;
      effects := [];
    }

    /** `handleEdit` */
    method HandleEdit(product: Product)
      modifies this`currentEditForm, this`isOpen
      ensures currentEditForm == EditFromProduct(product) && isOpen
    {
      currentEditForm := EditFromProduct(product);
      isOpen := true;
    }

    /** `handleEditClose` */
    method HandleEditClose()
      modifies this`currentEditForm, this`isOpen
      ensures currentEditForm == InitForm && !isOpen
    {
      currentEditForm := InitForm;
      isOpen := false;
    }

    /**
     * `handleUpdateProduct(request)`: the PATCH goes to the product held
     * in the edit form, whatever id the request carries. When accepted,
     * the list is refreshed and then the editor closed, the edit form
     * left as it was; when rejected, at most a toast.
     */
    method HandleUpdateProduct(request: EditRequest, answer: PatchAnswer)
      modifies this`effects, this`isOpen
      ensures effects == old(effects)
        + [Patch(ProductUrl(currentEditForm.id), FormEntries(request))] + AfterPatch(answer)
      ensures isOpen == (old(isOpen) && !answer.Accepted?)
    {
      var form := BuildForm(request);
      effects := effects + [Patch(ProductUrl(currentEditForm.id), form.entries)];
      match answer {
        case Accepted =>
          effects := effects + [FetchProducts];
          effects := effects + [Close];
          isOpen := false;
        case Rejected(serverError, message) =>
          if serverError.Some? {
            effects := effects + [Toast(ErrorDescription(serverError.value, message))];
          }
      }
    }
  }

  /** A rejection whose body carries an error text is reported by exactly
      one toast: the image-name text when that text mentions "resource
      already exist" anywhere, the request error's message otherwise. A
      rejection without one shows nothing. */
  lemma RejectionToast(serverError: string, message: string)
    ensures (exists i: nat :: OccursAt(serverError, "resource already exist", i)) ==>
      AfterPatch(Rejected(Some(serverError), message)) == [Toast(ImageNameTaken)]
    ensures !(exists i: nat :: OccursAt(serverError, "resource already exist", i)) ==>
      AfterPatch(Rejected(Some(serverError), message)) == [Toast(message)]
    ensures AfterPatch(Rejected(None, message)) == []
  {
    var _ := ErrorDescription(serverError, message);
  }

  /** A rejected image name is reported with the image-name text. */
  lemma ImageNameRejection(message: string)
    ensures AfterPatch(Rejected(Some("resource already exist"), message)) == [Toast(ImageNameTaken)]
  {
    assert OccursAt("resource already exist", "resource already exist", 0);
    RejectionToast("resource already exist", message);
  }
}
