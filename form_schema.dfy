/**
 * The client-side form schemas: `orderInputForm` (the checkout form),
 * `adminProductForm` and `adminUserForm`. A form value is a record of the
 * fields the user filled in (`None` is a field left undefined); validating
 * it yields the list of issues, each a field name and the message shown,
 * in schema order and, within a field, in the order of its checks. The
 * form is accepted when there is no issue.
 *
 * A string check that fails does not stop the checks after it, so a short
 * phone number with a wrong prefix gets both messages. Length is counted in
 * characters. `.email()` is the parameter `isEmail`.
 */
module FormSchema {
  import opened Wrappers
  import opened Text
  import Validator

  datatype Issue = Issue(path: string, message: string)

  // ---------------------------------------------------------------------
  // orderInputForm
  // ---------------------------------------------------------------------

  const RequiredMessage := "Harus diisi"
  const NameTooShort := "Terlalu pendek"
  const NameTooLong := "Terlalu panjang"
  const PhoneTooShort := "Nomor telepon harus terdiri dari minimal 8 karakter"
  const PhoneTooLong := "Nomor telepon harus terdiri dari maksimal 14 karakter"
  const PhonePrefix := "Nomor telepon harus diawali dengan +62 atau 08"
  const InvalidEmail := "Invalid email"

  datatype OrderForm = OrderForm(
    name: Option<string>, phoneNumber: Option<string>, email: Option<string>, address: Option<string>)

  predicate HasPhonePrefix(phone: string) {
    StartsWith(phone, "+62") || StartsWith(phone, "08")
  }

  function NameIssues(name: Option<string>): seq<Issue> {
    if name.None? then [Issue("name", RequiredMessage)]
    else
      (if |name.value| < 4 then [Issue("name", NameTooShort)] else [])
      + (if |name.value| > 50 then [Issue("name", NameTooLong)] else [])
  }

  function PhoneIssues(phone: Option<string>): seq<Issue> {
    if phone.None? then [Issue("phoneNumber", RequiredMessage)]
    else
      (if |phone.value| < 8 then [Issue("phoneNumber", PhoneTooShort)] else [])
      + (if |phone.value| > 14 then [Issue("phoneNumber", PhoneTooLong)] else [])
      + (if HasPhonePrefix(phone.value) then [] else [Issue("phoneNumber", PhonePrefix)])
  }

  function EmailIssues(isEmail: string -> bool, path: string, email: Option<string>,
                       requiredMessage: string, formatMessage: string): seq<Issue> {
    if email.None? then [Issue(path, requiredMessage)]
    else if isEmail(email.value) then []
    else [Issue(path, formatMessage)]
  }

  /**
   * `orderInputForm`: accepted exactly when the name has 4 to 50
   * characters, the phone number 8 to 14 characters starting with `+62` or
   * `08`, and the e-mail is present and well-formed. The address may be
   * absent.
   */
  function OrderFormIssues(isEmail: string -> bool, f: OrderForm): (r: seq<Issue>)
    ensures r == [] <==>
      && f.name.Some? && 4 <= |f.name.value| <= 50
      && f.phoneNumber.Some? && 8 <= |f.phoneNumber.value| <= 14
      && HasPhonePrefix(f.phoneNumber.value)
      && f.email.Some? && isEmail(f.email.value)
    ensures forall i :: 0 <= i < |r| ==> r[i].path in {"name", "phoneNumber", "email"}
  {
    NameIssues(f.name) + PhoneIssues(f.phoneNumber)
    + EmailIssues(isEmail, "email", f.email, RequiredMessage, InvalidEmail)
  }

  /** A phone number of acceptable length but wrong prefix draws exactly
      the prefix message. */
  lemma PhonePrefixMessage(phone: string)
    requires 8 <= |phone| <= 14 && !HasPhonePrefix(phone)
    ensures PhoneIssues(Some(phone)) == [Issue("phoneNumber", PhonePrefix)]
  {
  }

  /** The address is never checked: any value, or none, gives the same
      issues. */
  lemma AddressIsOptional(isEmail: string -> bool, f: OrderForm, address: Option<string>)
    ensures OrderFormIssues(isEmail, f.(address := address)) == OrderFormIssues(isEmail, f)
  {
  }

  /** The prefix check still runs after the length check failed. */
  lemma ShortPhoneGetsBothMessages()
    ensures PhoneIssues(Some("123")) ==
      [Issue("phoneNumber", PhoneTooShort), Issue("phoneNumber", PhonePrefix)]
  {
    assert "123"[..3][0] != "+62"[0];
    assert "123"[..2][0] != "08"[0];
  }

  // ---------------------------------------------------------------------
  // adminProductForm
  // ---------------------------------------------------------------------

  datatype ProductForm = ProductForm(
    name: Option<string>, priceBase: Option<int>, price: Option<int>,
    stock: Validator.Nullish<int>, storeId: Option<string>,
    categoryIds: Option<seq<string>>, description: Option<string>)

  const DefaultRequired := "Required"
  const StockNegative := "Stok tidak bisa negatif"
  const CategoryNeeded := "Setidaknya satu kategori diperlukan"

  function Required<T>(path: string, v: Option<T>, message: string): seq<Issue> {
    if v.None? then [Issue(path, message)] else []
  }

  function StockIssues(stock: Validator.Nullish<int>): seq<Issue> {
    if stock.Defined? && stock.value < 0 then [Issue("stock", StockNegative)] else []
  }

  function CategoryIdsIssues(ids: Option<seq<string>>): seq<Issue> {
    if ids.None? then [Issue("categoryIds", DefaultRequired)]
    else if |ids.value| < 1 then [Issue("categoryIds", CategoryNeeded)]
    else []
  }

  /**
   * `adminProductForm`: accepted exactly when name, both prices and the
   * store are given, the stock is absent, null or not negative, and at
   * least one category is chosen.
   */
  function ProductFormIssues(f: ProductForm): (r: seq<Issue>)
    ensures r == [] <==>
      && f.name.Some? && f.priceBase.Some? && f.price.Some? && f.storeId.Some?
      && (f.stock.Defined? ==> f.stock.value >= 0)
      && f.categoryIds.Some? && |f.categoryIds.value| >= 1
  {
    Required("name", f.name, "Nama diperlukan")
    + Required("priceBase", f.priceBase, "Harga diperlukan")
    + Required("price", f.price, "Harga diperlukan")
    + StockIssues(f.stock)
    + Required("storeId", f.storeId, "Toko diperlukan")
    + CategoryIdsIssues(f.categoryIds)
  }

  /** A negative stock is reported with the stock message. */
  lemma NegativeStockMessage(f: ProductForm)
    requires f.stock.Defined? && f.stock.value < 0
    ensures Issue("stock", StockNegative) in ProductFormIssues(f)
  {
  }

  // ---------------------------------------------------------------------
  // adminUserForm
  // ---------------------------------------------------------------------

  datatype UserForm = UserForm(
    name: Option<string>, email: Option<string>, password: Option<string>, role: Option<string>)

  const PasswordTooShort := "Kata sandi harus terdiri dari minimal 6 karakter"

  function PasswordIssues(password: Option<string>): seq<Issue> {
    if password.None? then [Issue("password", "Kata sandi wajib diisi")]
    else if |password.value| < 6 then [Issue("password", PasswordTooShort)]
    else []
  }

  /** `adminUserForm`: accepted exactly when every field is given, the
      e-mail is well-formed and the password has at least 6 characters. */
  function UserFormIssues(isEmail: string -> bool, f: UserForm): (r: seq<Issue>)
    ensures r == [] <==>
      && f.name.Some? && f.email.Some? && isEmail(f.email.value)
      && f.password.Some? && |f.password.value| >= 6 && f.role.Some?
  {
    Required("name", f.name, "Nama wajib diisi")
    + EmailIssues(isEmail, "email", f.email, "Email wajib diisi", "Alamat email tidak valid")
    + PasswordIssues(f.password)
    + Required("role", f.role, "Peran wajib diisi")
  }
}
