/**
 * The product editor's input rules, written twice in the repository with
 * the same logic (the modal and the inline form): un-formatting the price
 * text, the request built from the input, the handlers that replace the
 * input record, the category options of the chosen store and the Save
 * rule. Each handler is a function from the input before the event to the
 * input after it.
 */
module ProductInput {
  import opened Wrappers
  import opened Text

  /** A chosen category in the multi-select: `title` is its label and `value` its id. */
  datatype CategoryChoice = CategoryChoice(title: string, value: string)
  datatype Category = Category(id: string, name: string, storeId: string)
  /** A picked image file, by name. */
  datatype FileRef = FileRef(name: string)

  datatype Input = Input(
    name: string, price: string, stock: int, storeId: string,
    categories: seq<CategoryChoice>, description: string, image: Option<FileRef>)

  const InitialInput := Input("", "", 0, "", [], "", None)

  // ---------------------------------------------------------------------
  // unFormatPrice
  // ---------------------------------------------------------------------

  /** `s.replace(/Rp|\./g, '')`: scanning left to right, every `Rp` and
      every `.` is deleted; what a deletion brings together is not scanned
      again. */
  function StripRpAndDots(s: string): (r: string)
    ensures forall i :: 0 <= i < |r| ==> r[i] != '.'
    ensures |r| <= |s|
    decreases |s|
  {
    if |s| == 0 then ""
    else if |s| >= 2 && s[0] == 'R' && s[1] == 'p' then StripRpAndDots(s[2..])
    else if s[0] == '.' then StripRpAndDots(s[1..])
    else [s[0]] + StripRpAndDots(s[1..])
  }

  /** `s.replace(',', '.')`: only the first comma. */
  function ReplaceFirstComma(s: string): (r: string)
    ensures |r| == |s|
    decreases |s|
  {
    if |s| == 0 then ""
    else if s[0] == ',' then ['.'] + s[1..]
    else [s[0]] + ReplaceFirstComma(s[1..])
  }

  /** `unFormatPrice`; `None` is `NaN`. */
  function UnFormatPrice(price: string): Option<int> {
    ParseInt(ReplaceFirstComma(StripRpAndDots(price)))
  }

  predicate IsDigit(c: char) {
    '0' <= c <= '9'
  }

  function DigitsOf(s: string): string
    decreases |s|
  {
    if |s| == 0 then "" else (if IsDigit(s[0]) then [s[0]] else "") + DigitsOf(s[1..])
  }

  /** Stripping keeps every digit, in order. */
  lemma {:induction false} StripKeepsDigits(s: string)
    ensures DigitsOf(StripRpAndDots(s)) == DigitsOf(s)
    decreases |s|
  {
    if |s| >= 2 && s[0] == 'R' && s[1] == 'p' {
      StripKeepsDigits(s[2..]);
      assert DigitsOf(s) == DigitsOf(s[1..]);
      assert s[1..][1..] == s[2..];
    } else if |s| > 0 {
      StripKeepsDigits(s[1..]);
      var r := StripRpAndDots(s);
      if s[0] != '.' {
        assert r[0] == s[0] && r[1..] == StripRpAndDots(s[1..]);
      }
    }
  }

  /** The deletion is not repeated: `RRpp` becomes `Rp`. */
  lemma StripIsSinglePass()
    ensures StripRpAndDots("RRpp") == "Rp"
  {
    assert "RRpp"[1..] == "Rpp";
    assert "Rpp"[2..] == "p";
    assert "RRpp"[0] == 'R' && "RRpp"[1] != 'p';
  }

  /** Digit groups of three from the right, joined by `.`, as the price
      field shows a number. */
  function Grouped(ds: string): string
    decreases |ds|
  {
    if |ds| <= 3 then ds else Grouped(ds[..|ds| - 3]) + "." + ds[|ds| - 3..]
  }

  /** What the price field shows for `n` and the digits typed after the
      decimal comma. */
  function PriceText(n: nat, fraction: string): string {
    "Rp." + Grouped(NatToDecimal(n)) + (if fraction == "" then "" else "," + fraction)
  }

  function DropDots(s: string): string
    decreases |s|
  {
    if |s| == 0 then "" else (if s[0] == '.' then "" else [s[0]]) + DropDots(s[1..])
  }

  lemma {:induction false} DropDotsConcat(a: string, b: string)
    ensures DropDots(a + b) == DropDots(a) + DropDots(b)
    decreases |a|
  {
    if |a| == 0 {
      assert a + b == b;
    } else {
      assert (a + b)[1..] == a[1..] + b;
      DropDotsConcat(a[1..], b);
    }
  }

  /** With no `R` about, stripping only drops the dots. */
  lemma {:induction false} StripWithoutR(s: string)
    requires forall i :: 0 <= i < |s| ==> s[i] != 'R'
    ensures StripRpAndDots(s) == DropDots(s)
    decreases |s|
  {
    if |s| > 0 {
      StripWithoutR(s[1..]);
    }
  }

  lemma {:induction false} DropDotsOfGrouped(ds: string)
    requires forall i :: 0 <= i < |ds| ==> IsDigit(ds[i])
    ensures DropDots(Grouped(ds)) == ds
    ensures forall i :: 0 <= i < |Grouped(ds)| ==> IsDigit(Grouped(ds)[i]) || Grouped(ds)[i] == '.'
    decreases |ds|
  {
    if |ds| <= 3 {
      NoDotsKept(ds);
    } else {
      var hi := ds[..|ds| - 3];
      var lo := ds[|ds| - 3..];
      DropDotsOfGrouped(hi);
      GroupStep(Grouped(hi), hi, lo);
      assert ds == hi + lo;
    }
  }

  /** One more group after a grouped prefix. */
  lemma GroupStep(g: string, hi: string, lo: string)
    requires DropDots(g) == hi
    requires forall i :: 0 <= i < |g| ==> IsDigit(g[i]) || g[i] == '.'
    requires forall i :: 0 <= i < |lo| ==> IsDigit(lo[i])
    ensures DropDots(g + "." + lo) == hi + lo
    ensures forall i :: 0 <= i < |g + "." + lo| ==> IsDigit((g + "." + lo)[i]) || (g + "." + lo)[i] == '.'
  {
    NoDotsKept(lo);
    GroupStepDots(g, hi, lo);
    GroupStepChars(g, lo);
  }

  lemma GroupStepDots(g: string, hi: string, lo: string)
    requires DropDots(g) == hi && DropDots(lo) == lo
    ensures DropDots(g + "." + lo) == hi + lo
  {
    DropDotsConcat(g + ".", lo);
    DropDotsConcat(g, ".");
    DropDotsOfDot();
    assert hi + "" == hi;
  }

  lemma DropDotsOfDot()
    ensures DropDots(".") == ""
  {
    assert "."[1..] == "";
  }

  lemma GroupStepChars(g: string, lo: string)
    requires forall i :: 0 <= i < |g| ==> IsDigit(g[i]) || g[i] == '.'
    requires forall i :: 0 <= i < |lo| ==> IsDigit(lo[i])
    ensures forall i :: 0 <= i < |g + "." + lo| ==> IsDigit((g + "." + lo)[i]) || (g + "." + lo)[i] == '.'
  {
    var w := g + "." + lo;
    forall i | 0 <= i < |w|
      ensures IsDigit(w[i]) || w[i] == '.'
    {
      if i < |g| {
        assert w[i] == g[i];
      } else if i > |g| {
        assert w[i] == lo[i - |g| - 1];
      }
    }
  }

  lemma {:induction false} NoDotsKept(s: string)
    requires forall i :: 0 <= i < |s| ==> IsDigit(s[i])
    ensures DropDots(s) == s
    decreases |s|
  {
    if |s| > 0 {
      NoDotsKept(s[1..]);
    }
  }

  lemma {:induction false} NoCommaUnchanged(s: string)
    requires forall i :: 0 <= i < |s| ==> s[i] != ','
    ensures ReplaceFirstComma(s) == s
    decreases |s|
  {
    if |s| > 0 {
      NoCommaUnchanged(s[1..]);
    }
  }

  lemma {:induction false} CommaAfterDigits(ds: string, rest: string)
    requires forall i :: 0 <= i < |ds| ==> IsDigit(ds[i])
    ensures ReplaceFirstComma(ds + "," + rest) == ds + "." + rest
    decreases |ds|
  {
    if |ds| == 0 {
      assert ds + "," + rest == "," + rest;
    } else {
      assert (ds + "," + rest)[1..] == ds[1..] + "," + rest;
      CommaAfterDigits(ds[1..], rest);
    }
  }

  lemma StripPrefix(g: string)
    ensures StripRpAndDots("Rp." + g) == StripRpAndDots(g)
  {
    assert ("Rp." + g)[2..] == "." + g;
    assert ("." + g)[1..] == g;
  }

  lemma StripGrouped(ds: string, tail: string)
    requires forall i :: 0 <= i < |ds| ==> IsDigit(ds[i])
    requires forall i :: 0 <= i < |tail| ==> tail[i] != 'R'
    requires DropDots(tail) == tail
    ensures StripRpAndDots(Grouped(ds) + tail) == ds + tail
  {
    var g := Grouped(ds);
    DropDotsOfGrouped(ds);
    assert forall i :: 0 <= i < |g + tail| ==> (g + tail)[i] != 'R' by {
      forall i | 0 <= i < |g + tail|
        ensures (g + tail)[i] != 'R'
      {
        if i < |g| {
          assert (g + tail)[i] == g[i];
        } else {
          assert (g + tail)[i] == tail[i - |g|];
        }
      }
    }
    StripWithoutR(g + tail);
    DropDotsConcat(g, tail);
  }

  lemma UnFormatSteps(price: string, stripped: string, replaced: string, n: int)
    requires StripRpAndDots(price) == stripped
    requires ReplaceFirstComma(stripped) == replaced
    requires ParseInt(replaced) == Some(n)
    ensures UnFormatPrice(price) == Some(n)
  {
  }

  lemma RoundTripWhole(n: nat)
    ensures UnFormatPrice("Rp." + (Grouped(NatToDecimal(n)) + "")) == Some(n)
  {
    var ds := NatToDecimal(n);
    StripPrefix(Grouped(ds) + "");
    StripGrouped(ds, "");
    assert ds + "" == ds;
    NoCommaUnchanged(ds);
    ParseIntOfDecimal(n, "");
    UnFormatSteps("Rp." + (Grouped(ds) + ""), ds, ds, n);
  }

  lemma StripFractionText(ds: string, fraction: string)
    requires forall i :: 0 <= i < |ds| ==> IsDigit(ds[i])
    requires forall i :: 0 <= i < |fraction| ==> IsDigit(fraction[i])
    ensures StripRpAndDots("Rp." + (Grouped(ds) + ("," + fraction))) == ds + ("," + fraction)
  {
    var tail := "," + fraction;
    StripPrefix(Grouped(ds) + tail);
    NoDotsKept(fraction);
    DropDotsConcat(",", fraction);
    assert forall i :: 0 <= i < |tail| ==> tail[i] != 'R' by {
      forall i | 0 <= i < |tail|
        ensures tail[i] != 'R'
      {
        if i > 0 {
          assert tail[i] == fraction[i - 1];
        }
      }
    }
    StripGrouped(ds, tail);
  }

  lemma ParseBeforePoint(n: nat, fraction: string)
    ensures ParseInt(NatToDecimal(n) + "." + fraction) == Some(n)
  {
    var ds := NatToDecimal(n);
    assert IntToDecimal(n) == ds;
    ConcatAssoc(ds, ".", fraction);
    ParseIntOfDecimal(n, "." + fraction);
  }

  lemma RoundTripFraction(n: nat, fraction: string)
    requires forall i :: 0 <= i < |fraction| ==> IsDigit(fraction[i])
    ensures UnFormatPrice("Rp." + (Grouped(NatToDecimal(n)) + ("," + fraction))) == Some(n)
  {
    var ds := NatToDecimal(n);
    StripFractionText(ds, fraction);
    ConcatAssoc(ds, ",", fraction);
    CommaAfterDigits(ds, fraction);
    ParseBeforePoint(n, fraction);
    UnFormatSteps("Rp." + (Grouped(ds) + ("," + fraction)), ds + "," + fraction, ds + "." + fraction, n);
  }

  /**
   * Un-formatting reads back the number the price field shows, whatever
   * digits follow the decimal comma: the thousands dots and the `Rp.`
   * prefix go, and `parseInt` stops at the decimal point.
   */
  lemma UnFormatPriceRoundTrip(n: nat, fraction: string)
    requires forall i :: 0 <= i < |fraction| ==> IsDigit(fraction[i])
    ensures UnFormatPrice(PriceText(n, fraction)) == Some(n)
  {
    var g := Grouped(NatToDecimal(n));
    if fraction == "" {
      assert PriceText(n, fraction) == "Rp." + (g + "");
      RoundTripWhole(n);
    } else {
      assert PriceText(n, fraction) == "Rp." + (g + ("," + fraction));
      RoundTripFraction(n, fraction);
    }
  }

  /** The fraction is dropped: `Rp.1.234,5` is read as 1234. */
  lemma UnFormatExample()
    ensures UnFormatPrice("Rp.1.234,5") == Some(1234)
  {
    ShownPrice1234();
    UnFormatPriceRoundTrip(1234, "5");
  }

  lemma ShownPrice1234()
    ensures PriceText(1234, "5") == "Rp.1.234,5"
  {
    Decimal1234();
    Grouped1234();
  }

  lemma Decimal1234()
    ensures NatToDecimal(1234) == "1234"
  {
    assert NatToDecimal(12) == "12" by {
      assert NatToDecimal(1) == "1";
    }
    assert NatToDecimal(123) == "123" by {
      assert NatToDecimal(123) == NatToDecimal(12) + [DigitChar(3)];
    }
    assert NatToDecimal(1234) == NatToDecimal(123) + [DigitChar(4)];
  }

  lemma Grouped1234()
    ensures Grouped("1234") == "1.234"
  {
    assert "1234"[..1] == "1" && "1234"[1..] == "234";
  }

  // ---------------------------------------------------------------------
  // The request, the handlers, the options and the Save rule
  // ---------------------------------------------------------------------

  datatype Request = Request(
    name: string, price: Option<int>, stock: int, storeId: string,
    categories: seq<CategoryChoice>, categoryIds: seq<string>,
    description: string, image: Option<FileRef>)

  /** `request`: the input with its price un-formatted and the chosen
      categories' ids added. */
  function RequestOf(input: Input): (r: Request)
    ensures r.price == UnFormatPrice(input.price)
    ensures |r.categoryIds| == |input.categories|
    ensures forall i :: 0 <= i < |r.categoryIds| ==> r.categoryIds[i] == input.categories[i].value
    ensures r.name == input.name && r.stock == input.stock && r.storeId == input.storeId
    ensures r.categories == input.categories && r.description == input.description && r.image == input.image
  {
    Request(input.name, UnFormatPrice(input.price), input.stock, input.storeId, input.categories,
            seq(|input.categories|, i requires 0 <= i < |input.categories| => input.categories[i].value),
            input.description, input.image)
  }

  /** The text fields `handleChange` is attached to. */
  datatype TextField = Name | Price | StoreId | Description

  /** `handleChange`: the field takes the value; choosing a store clears
      the chosen categories, any other field keeps them. */
  function Changed(input: Input, field: TextField, value: string): (r: Input)
    ensures r.categories == if field == StoreId then [] else input.categories
    ensures r.stock == input.stock && r.image == input.image
    ensures r.name == if field == Name then value else input.name
    ensures r.price == if field == Price then value else input.price
    ensures r.storeId == if field == StoreId then value else input.storeId
    ensures r.description == if field == Description then value else input.description
  {
    match field
    case Name => input.(name := value)
    case Price => input.(price := value)
    case StoreId => input.(storeId := value, categories := [])
    case Description => input.(description := value)
  }

  /** `handleCategoriesChange` */
  function CategoriesChanged(input: Input, value: seq<CategoryChoice>): (r: Input)
    ensures RequestOf(r).categories == value
    ensures |RequestOf(r).categoryIds| == |value|
    ensures forall i :: 0 <= i < |value| ==> RequestOf(r).categoryIds[i] == value[i].value
    ensures RequestOf(r).(categories := [], categoryIds := []) == RequestOf(input).(categories := [], categoryIds := [])
    ensures SaveDisabled(r) == SaveDisabled(input)
  {
    input.(categories := value)
  }

  /** `handleStockChange`: text that does not start with a number counts
      as 0; a negative number leaves the input as it was; otherwise the
      stock becomes the number. */
  function StockChanged(input: Input, value: string): (r: Input)
  {
    var parsed := ParseInt(value);
    var quantity := if parsed.Some? then parsed.value else 0;
    if quantity < 0 then input else input.(stock := quantity)
  }

  /** The stock rule, case by case, and the invariant it keeps: the stock
      is never made negative. */
  lemma StockChangedCases(input: Input, value: string)
    ensures ParseInt(value).None? ==> StockChanged(input, value) == input.(stock := 0)
    ensures ParseInt(value).Some? && ParseInt(value).value < 0 ==> StockChanged(input, value) == input
    ensures ParseInt(value).Some? && ParseInt(value).value >= 0 ==>
      StockChanged(input, value) == input.(stock := ParseInt(value).value)
    ensures input.stock >= 0 ==> StockChanged(input, value).stock >= 0
  {
  }

  /** Typing `12pcs` sets 12; typing `-3` changes nothing. */
  lemma StockChangedExamples(input: Input)
    ensures StockChanged(input, "12pcs").stock == 12
    ensures StockChanged(input, "-3") == input
  {
    TwelvePcs();
    MinusThree();
  }

  lemma TwelvePcs()
    ensures ParseInt("12pcs") == Some(12)
  {
    assert "12pcs" == IntToDecimal(12) + "pcs";
    ParseIntOfDecimal(12, "pcs");
  }

  lemma MinusThree()
    ensures ParseInt("-3") == Some(-3)
  {
    assert "-3" == IntToDecimal(-3) + "";
    ParseIntOfDecimal(-3, "");
  }

  /** `handleImageChange`: a picked file replaces the image; no file
      changes nothing. */
  function ImageChanged(input: Input, file: Option<FileRef>): (r: Input)
    ensures file.Some? ==> RequestOf(r).image == file
    ensures file.None? ==> RequestOf(r) == RequestOf(input)
    ensures RequestOf(r).(image := None) == RequestOf(input).(image := None)
    ensures SaveDisabled(r) == SaveDisabled(input)
  {
    if file.None? then input else input.(image := file)
  }

  /** `categoryOptions`: the categories of the chosen store, in order, as
      label and value. */
  function CategoryOptions(categories: seq<Category>, storeId: string): (r: seq<CategoryChoice>)
    ensures |r| <= |categories|
    ensures forall c :: c in categories && c.storeId == storeId ==> CategoryChoice(c.name, c.id) in r
    ensures forall o :: o in r ==> exists c :: c in categories && c.storeId == storeId && o == CategoryChoice(c.name, c.id)
  {
    if |categories| == 0 then []
    else
      var c := categories[0];
      (if c.storeId == storeId then [CategoryChoice(c.name, c.id)] else [])
      + CategoryOptions(categories[1..], storeId)
  }

  /** The options keep the categories' order. */
  lemma {:induction false} CategoryOptionsConcat(a: seq<Category>, b: seq<Category>, storeId: string)
    ensures CategoryOptions(a + b, storeId) == CategoryOptions(a, storeId) + CategoryOptions(b, storeId)
    decreases |a|
  {
    if |a| == 0 {
      assert a + b == b;
    } else {
      assert (a + b)[0] == a[0];
      assert (a + b)[1..] == a[1..] + b;
      CategoryOptionsConcat(a[1..], b, storeId);
    }
  }

  /** Save (and the category select) is disabled while no store is
      chosen. */
  predicate SaveDisabled(input: Input) {
    RequestOf(input).storeId == ""
  }

  /** Save is disabled exactly when no store is chosen; choosing a store
      enables it, leaves no category chosen, and offers exactly that
      store's categories. */
  lemma ChoosingStore(input: Input, categories: seq<Category>, storeId: string)
    requires storeId != ""
    ensures SaveDisabled(input) <==> input.storeId == ""
    ensures var after := Changed(input, StoreId, storeId);
      && !SaveDisabled(after)
      && after.categories == []
      && RequestOf(after).categoryIds == []
      && CategoryOptions(categories, after.storeId) == CategoryOptions(categories, storeId)
  {
  }
}
