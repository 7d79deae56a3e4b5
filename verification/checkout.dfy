/** The checkout page: the form and its defaults, the order payload built
    from the cart and the form, what a response does to the cart, and the
    unrounded totals the page shows. */
module Checkout {
  import opened Wrappers
  import opened CartStore
  import opened Money
  import opened UserJson
  import Auth
  import CartPage

  // ---------------------------------------------------------------------
  // The form

  /** `formData`: every field is the text of an input. */
  datatype FormData = FormData(
    name: string,
    email: string,
    phone: string,
    address: string,
    city: string,
    state: string,
    zipCode: string,
    paymentMethod: string,
    cardNumber: string,
    expiryDate: string,
    cvv: string)

  const DefaultPaymentMethod: string := "credit-card"

  /** `value || ''` for a profile field that may be missing. */
  function OrEmpty(value: Option<string>): (s: string)
    ensures value.None? ==> s == ""
    ensures value.Some? ==> s == value.value
  {
    if value.Some? && value.value != "" then value.value else ""
  }

  function AddressField(u: Option<User>, pick: Address -> Option<string>): Option<string> {
    if u.Some? && u.value.address.Some? then pick(u.value.address.value) else None
  }

  function Street(a: Address): Option<string> { a.street }
  function City(a: Address): Option<string> { a.city }
  function State(a: Address): Option<string> { a.state }
  function ZipCode(a: Address): Option<string> { a.zipCode }

  /** The form's first state: the signed-in user's details where present,
      empty text elsewhere, card payment selected and no card details. */
  function InitialForm(currentUser: Option<User>): (f: FormData)
    ensures currentUser.None? ==>
      f == FormData("", "", "", "", "", "", "", DefaultPaymentMethod, "", "", "")
    ensures currentUser.Some? ==>
      f.name == currentUser.value.name.GetOr("") &&
      f.email == currentUser.value.email.GetOr("") &&
      f.phone == currentUser.value.phone.GetOr("")
    ensures currentUser.Some? && currentUser.value.address.Some? ==>
      var a := currentUser.value.address.value;
      f.address == a.street.GetOr("") && f.city == a.city.GetOr("") &&
      f.state == a.state.GetOr("") && f.zipCode == a.zipCode.GetOr("")
    ensures currentUser.Some? && currentUser.value.address.None? ==>
      f.address == "" && f.city == "" && f.state == "" && f.zipCode == ""
    ensures f.paymentMethod == DefaultPaymentMethod
    ensures f.cardNumber == "" && f.expiryDate == "" && f.cvv == ""
  {
    var u := currentUser;
    FormData(
      OrEmpty(if u.Some? then u.value.name else None),
      OrEmpty(if u.Some? then u.value.email else None),
      OrEmpty(if u.Some? then u.value.phone else None),
      OrEmpty(AddressField(u, Street)),
      OrEmpty(AddressField(u, City)),
      OrEmpty(AddressField(u, State)),
      OrEmpty(AddressField(u, ZipCode)),
      DefaultPaymentMethod, "", "", "")
  }

  /** The inputs the form renders. */
  datatype Input = NameInput | EmailInput | PhoneInput | AddressInput | CityInput | StateInput
                 | ZipCodeInput | PaymentMethodInput | CardNumberInput | ExpiryDateInput | CvvInput

  /** An input's `name` attribute. */
  function InputName(i: Input): string {
    match i
    case NameInput => "name"
    case EmailInput => "email"
    case PhoneInput => "phone"
    case AddressInput => "address"
    case CityInput => "city"
    case StateInput => "state"
    case ZipCodeInput => "zipCode"
    case PaymentMethodInput => "paymentMethod"
    case CardNumberInput => "cardNumber"
    case ExpiryDateInput => "expiryDate"
    case CvvInput => "cvv"
  }

  /** The input a change event's `e.target.name` names, if the form renders one. */
  function InputNamed(name: string): (r: Option<Input>)
    ensures r.Some? ==> InputName(r.value) == name
    ensures r.None? ==> forall i: Input :: InputName(i) != name
  {
    if name == "name" then Some(NameInput)
    else if name == "email" then Some(EmailInput)
    else if name == "phone" then Some(PhoneInput)
    else if name == "address" then Some(AddressInput)
    else if name == "city" then Some(CityInput)
    else if name == "state" then Some(StateInput)
    else if name == "zipCode" then Some(ZipCodeInput)
    else if name == "paymentMethod" then Some(PaymentMethodInput)
    else if name == "cardNumber" then Some(CardNumberInput)
    else if name == "expiryDate" then Some(ExpiryDateInput)
    else if name == "cvv" then Some(CvvInput)
    else None
  }

  /** Reading the text of an input. */
  function Field(f: FormData, i: Input): string {
    match i
    case NameInput => f.name
    case EmailInput => f.email
    case PhoneInput => f.phone
    case AddressInput => f.address
    case CityInput => f.city
    case StateInput => f.state
    case ZipCodeInput => f.zipCode
    case PaymentMethodInput => f.paymentMethod
    case CardNumberInput => f.cardNumber
    case ExpiryDateInput => f.expiryDate
    case CvvInput => f.cvv
  }

  function WithField(f: FormData, i: Input, value: string): FormData {
    match i
    case NameInput => f.(name := value)
    case EmailInput => f.(email := value)
    case PhoneInput => f.(phone := value)
    case AddressInput => f.(address := value)
    case CityInput => f.(city := value)
    case StateInput => f.(state := value)
    case ZipCodeInput => f.(zipCode := value)
    case PaymentMethodInput => f.(paymentMethod := value)
    case CardNumberInput => f.(cardNumber := value)
    case ExpiryDateInput => f.(expiryDate := value)
    case CvvInput => f.(cvv := value)
  }

  /** `handleInputChange`: `{ ...formData, [e.target.name]: e.target.value }`.
      A name the form does not render adds a key nothing on the page reads. */
  function SetField(f: FormData, name: string, value: string): FormData {
    match InputNamed(name)
    case None => f
    case Some(i) => WithField(f, i, value)
  }

  /** A change event on an input sets that input's text to the typed value ... */
  lemma SetFieldSetsIt(f: FormData, i: Input, value: string)
    ensures Field(SetField(f, InputName(i), value), i) == value
  {
    assert InputNamed(InputName(i)) == Some(i) by {
      var r := InputNamed(InputName(i));
      assert r.Some?;
      InputNameInjective(r.value, i);
    }
  }

  lemma InputNameInjective(i: Input, j: Input)
    requires InputName(i) == InputName(j)
    ensures i == j
  {
  }

  /** ... and leaves every other input as it was ... */
  lemma SetFieldKeepsOthers(f: FormData, name: string, value: string, other: Input)
    requires InputName(other) != name
    ensures Field(SetField(f, name, value), other) == Field(f, other)
  {
    var r := InputNamed(name);
    if r.Some? {
      WithFieldKeepsOthers(f, r.value, value, other);
    }
  }

  lemma WithFieldKeepsOthers(f: FormData, i: Input, value: string, other: Input)
    requires i != other
    ensures Field(WithField(f, i, value), other) == Field(f, other)
  {
  }

  /** ... and a name the form does not render changes nothing. */
  lemma SetFieldUnknown(f: FormData, name: string, value: string)
    requires forall i: Input :: InputName(i) != name
    ensures SetField(f, name, value) == f
  {
    assert InputNamed(name).None?;
  }

  // ---------------------------------------------------------------------
  // The order payload

  datatype OrderItem = OrderItem(food: Option<string>, quantity: int)
  datatype DeliveryAddress = DeliveryAddress(street: string, city: string, state: string, zipCode: string)
  datatype CustomerInfo = CustomerInfo(name: string, email: string, phone: string)
  datatype OrderData = OrderData(
    items: seq<OrderItem>,
    deliveryAddress: DeliveryAddress,
    paymentMethod: string,
    customerInfo: CustomerInfo)

  /** `cart.map(item => ({ food: item._id, quantity: item.quantity }))`. */
  function OrderItems(cart: Cart): (items: seq<OrderItem>)
    ensures |items| == |cart|
    ensures forall i :: 0 <= i < |cart| ==>
      items[i].food == cart[i].food.mongoId && items[i].quantity == cart[i].quantity
  {
    seq(|cart|, i requires 0 <= i < |cart| => OrderItem(cart[i].food.mongoId, cart[i].quantity))
  }

  /** `orderData` in `handleSubmit`: one item per line in cart order; the
      form's `address` goes out as `street`; payment method and contact
      details are copied; the card fields are not sent. */
  function BuildOrder(cart: Cart, form: FormData): (o: OrderData)
    ensures o.items == OrderItems(cart)
    ensures o.deliveryAddress == DeliveryAddress(form.address, form.city, form.state, form.zipCode)
    ensures o.paymentMethod == form.paymentMethod
    ensures o.customerInfo == CustomerInfo(form.name, form.email, form.phone)
  {
    OrderData(
      OrderItems(cart),
      DeliveryAddress(form.address, form.city, form.state, form.zipCode),
      form.paymentMethod,
      CustomerInfo(form.name, form.email, form.phone))
  }

  function ItemQuantities(items: seq<OrderItem>): int {
    if items == [] then 0 else ItemQuantities(items[..|items| - 1]) + items[|items| - 1].quantity
  }

  /** The order asks for as many units as the navbar counts in the cart. */
  lemma {:induction false} OrderUnitsMatchCart(cart: Cart)
    ensures ItemQuantities(OrderItems(cart)) == ItemsCount(cart)
  {
    if cart != [] {
      var init := cart[..|cart| - 1];
      OrderUnitsMatchCart(init);
      assert OrderItems(cart)[..|cart| - 1] == OrderItems(init);
    }
  }

  /** A valid cart yields an order naming each food once, with positive
      quantities. */
  lemma OrderItemsDistinct(cart: Cart)
    requires Valid(cart)
    ensures var items := OrderItems(cart);
      (forall i, j :: 0 <= i < j < |items| ==> items[i].food != items[j].food) &&
      (forall i :: 0 <= i < |items| ==> items[i].quantity >= 1)
  {
    var items := OrderItems(cart);
    forall i, j | 0 <= i < j < |items| ensures items[i].food != items[j].food {
      assert KeyOf(cart[i]) != KeyOf(cart[j]);
    }
  }

  // ---------------------------------------------------------------------
  // Constraint validation
  //
  // The form has no `noValidate`, so the browser runs `onSubmit` only when
  // every rendered input satisfies its constraints: `required` inputs are
  // non-empty, the `type="email"` input holds a valid e-mail address, and no
  // input is longer than its `maxLength`.

  /** The card inputs are rendered only while credit card is selected. */
  const CreditCard: string := "credit-card"
  const CardNumberMaxLength: nat := 19
  const ExpiryDateMaxLength: nat := 5
  const CvvMaxLength: nat := 4

  /** The position of the first `c` in `s`, if any. */
  function FirstIndex(s: string, c: char): (r: Option<nat>)
    ensures r.None? <==> c !in s
    ensures r.Some? ==> r.value < |s| && s[r.value] == c && c !in s[..r.value]
  {
    if s == [] then None
    else if s[0] == c then Some(0)
    else
      match FirstIndex(s[1..], c)
      case None => None
      case Some(k) =>
        assert s[..k + 1] == [s[0]] + s[1..][..k];
        Some(k + 1)
  }

  predicate AsciiAlphanumeric(c: char) {
    'a' <= c <= 'z' || 'A' <= c <= 'Z' || '0' <= c <= '9'
  }

  /** The characters the HTML Standard allows before the `@` of a valid
      e-mail address. */
  predicate LocalChar(c: char) {
    AsciiAlphanumeric(c) || c in ".!#$%&'*+/=?^_`{|}~-"
  }

  predicate ValidLocalPart(l: string) {
    l != [] && forall i :: 0 <= i < |l| ==> LocalChar(l[i])
  }

  /** One label of the domain: 1 to 63 letters, digits and hyphens, with no
      hyphen at either end. */
  predicate ValidLabel(l: string) {
    1 <= |l| <= 63 &&
    (forall i :: 0 <= i < |l| ==> AsciiAlphanumeric(l[i]) || l[i] == '-') &&
    l[0] != '-' && l[|l| - 1] != '-'
  }

  /** Labels separated by single dots. */
  predicate ValidDomain(d: string)
    decreases |d|
  {
    match FirstIndex(d, '.')
    case None => ValidLabel(d)
    case Some(k) => ValidLabel(d[..k]) && ValidDomain(d[k + 1..])
  }

  /** A "valid e-mail address" in the sense of the HTML Standard's
      `input type=email`: a local part, `@`, and a domain. */
  predicate ValidEmail(e: string) {
    match FirstIndex(e, '@')
    case None => false
    case Some(k) => ValidLocalPart(e[..k]) && ValidDomain(e[k + 1..])
  }

  lemma {:induction false} DomainHasNoAt(d: string)
    requires ValidDomain(d)
    ensures forall i :: 0 <= i < |d| ==> d[i] != '@'
    decreases |d|
  {
    match FirstIndex(d, '.')
    case None =>
    case Some(k) =>
      var first, rest := d[..k], d[k + 1..];
      DomainHasNoAt(rest);
      forall i | 0 <= i < |d| ensures d[i] != '@' {
        if i < k {
          assert d[i] == first[i];
        } else if i > k {
          assert d[i] == rest[i - k - 1];
        }
      }
  }

  /** An address is valid exactly when it splits at an `@` into a valid
      local part and a valid domain. */
  lemma {:induction false} ValidEmailSplit(local: string, domain: string)
    ensures ValidEmail(local + "@" + domain) <==> ValidLocalPart(local) && ValidDomain(domain)
  {
    var e := local + "@" + domain;
    assert e[|local|] == '@';
    match FirstIndex(e, '@')
    case None =>
    case Some(k) =>
      if k == |local| {
        assert e[..k] == local;
        assert e[k + 1..] == domain;
      } else {
        assert k < |local|;
        assert local[k] == '@';
        assert !ValidLocalPart(local);
        var rest := e[k + 1..];
        assert rest[|local| - k - 1] == '@';
        if ValidDomain(rest) {
          DomainHasNoAt(rest);
        }
      }
  }

  /** A domain is valid exactly when its first label is valid and the rest
      after the dot is a valid domain. */
  lemma {:induction false} ValidDomainSplit(first: string, rest: string)
    requires '.' !in first
    ensures ValidDomain(first + "." + rest) <==> ValidLabel(first) && ValidDomain(rest)
  {
    var d := first + "." + rest;
    assert d[|first|] == '.';
    var k := FirstIndex(d, '.').value;
    assert d[..k] == first;
    assert d[k + 1..] == rest;
  }

  /** Every constraint the rendered form puts on its inputs holds. */
  predicate Submittable(f: FormData) {
    f.name != "" && ValidEmail(f.email) && f.phone != "" &&
    f.address != "" && f.city != "" && f.state != "" && f.zipCode != "" &&
    f.paymentMethod != "" &&
    (f.paymentMethod == CreditCard ==>
      f.cardNumber != "" && |f.cardNumber| <= CardNumberMaxLength &&
      f.expiryDate != "" && |f.expiryDate| <= ExpiryDateMaxLength &&
      f.cvv != "" && |f.cvv| <= CvvMaxLength)
  }

  /** A form with a blank required input is never submitted; a guest's
      untouched form is one. */
  lemma BlankFieldBlocks(f: FormData)
    requires f.name == "" || f.email == "" || f.phone == "" || f.address == "" ||
             f.city == "" || f.state == "" || f.zipCode == ""
    ensures !Submittable(f)
    ensures !Submittable(InitialForm(None))
  {
    assert FirstIndex("", '@').None?;
  }

  /** With card payment, each card input is required; with another payment
      method the card inputs are not rendered and constrain nothing. */
  lemma CardFieldsOnlyForCards(f: FormData, number: string, expiry: string, cvv: string)
    requires f.paymentMethod != CreditCard
    ensures Submittable(f) <==> Submittable(f.(cardNumber := number, expiryDate := expiry, cvv := cvv))
    ensures Submittable(f) ==> !Submittable(f.(paymentMethod := CreditCard, cardNumber := ""))
  {
  }

  // ---------------------------------------------------------------------
  // Submitting

  /** How the order request ended: a response with `ok` set, a response
      without it (with the body's `message`, if any), or an exception from
      `fetch` or from reading the body. */
  datatype Response = Ok | NotOk(message: Option<string>) | Threw

  datatype Toast = Success(text: string) | Failure(text: string)

  const PlacedMessage: string := "Order placed successfully!"
  const RejectedMessage: string := "Failed to place order"
  const ThrewMessage: string := "Failed to place order. Please try again."

  /** The cart after the request, the toast shown, and whether the page
      navigates home. */
  datatype SubmitResult = SubmitResult(sent: OrderData, cart: Cart, toast: Toast, goHome: bool)

  /** `handleSubmit`: send the order; clear the cart only on an ok response. */
  function HandleSubmit(cart: Cart, form: FormData, response: Response): (r: SubmitResult)
    ensures r.sent == BuildOrder(cart, form)
    ensures response.Ok? ==> r.cart == [] && r.goHome && r.toast == Success(PlacedMessage)
    ensures !response.Ok? ==> r.cart == cart && !r.goHome && r.toast.Failure?
    ensures response.NotOk? && Auth.Truthy(response.message) ==> r.toast == Failure(response.message.value)
    ensures response.NotOk? && !Auth.Truthy(response.message) ==> r.toast == Failure(RejectedMessage)
    ensures response.Threw? ==> r.toast == Failure(ThrewMessage)
  {
    var order := BuildOrder(cart, form);
    match response
    case Ok => SubmitResult(order, ClearCart(cart), Success(PlacedMessage), true)
    case NotOk(message) =>
      SubmitResult(order, cart, Failure(if Auth.Truthy(message) then message.value else RejectedMessage), false)
    case Threw => SubmitResult(order, cart, Failure(ThrewMessage), false)
  }

  /** The page renders the order form only for a non-empty cart, and the
      browser runs `handleSubmit` only for a form that passes its
      constraints, so a submission exists only then. */
  function SubmitFromPage(cart: Cart, form: FormData, response: Response): (r: Option<SubmitResult>)
    ensures r.Some? <==> cart != [] && Submittable(form)
    ensures r.Some? ==> r.value.sent.items != [] && r.value.sent.customerInfo.email != ""
  {
    if |cart| == 0 || !Submittable(form) then None else Some(HandleSubmit(cart, form, response))
  }

  /** Whatever the response, the cart afterwards is still valid, and it is
      either emptied or left exactly as it was. */
  lemma SubmitKeepsCartValid(cart: Cart, form: FormData, response: Response)
    requires Valid(cart)
    ensures var after := HandleSubmit(cart, form, response).cart;
      Valid(after) && (after == [] || after == cart)
  {
  }

  // ---------------------------------------------------------------------
  // Totals as the checkout page computes them

  /** Lines 117-120 of the checkout page, in fine units: the tax is exactly
      8% of the subtotal, not rounded. */
  datatype FineTotals = FineTotals(subtotal: int, deliveryFee: int, tax: int, total: int)

  function CheckoutTotals(cart: Cart): (t: FineTotals)
    ensures t.subtotal == FinePerCent * Total(cart)
    ensures t.deliveryFee == FinePerCent * DeliveryFeeCents
    ensures 100 * t.tax == TaxPercent * t.subtotal
    ensures t.total == t.subtotal + t.deliveryFee + t.tax
  {
    var subtotal := Total(cart);
    FineTotals(FinePerCent * subtotal, FinePerCent * DeliveryFeeCents, ExactTaxFine(subtotal),
               FinePerCent * subtotal + FinePerCent * DeliveryFeeCents + ExactTaxFine(subtotal))
  }

  /** Shown with two decimals, the checkout page's tax and total agree with
      the cart page's; the tax it adds in differs from the cart page's by at
      most half a cent. */
  lemma CheckoutMatchesCartPage(cart: Cart)
    requires PositiveQuantities(cart)
    ensures var t := CheckoutTotals(cart);
      var s := CartPage.CartSummary(cart);
      RoundToCents(t.tax) == s.tax && RoundToCents(t.total) == s.total &&
      -50 <= t.tax - FinePerCent * s.tax <= 50
  {
    ValidAggregates(cart);
    var subtotal := Total(cart);
    RoundShift(subtotal + DeliveryFeeCents, ExactTaxFine(subtotal));
    RoundWholeCents(subtotal + RoundToCents(ExactTaxFine(subtotal)) + DeliveryFeeCents);
  }

  /** On the sample cart the two pages differ before display: the checkout
      page carries $2.7976 of tax, the cart page $2.80. */
  lemma SampleTaxesDiffer()
    ensures CheckoutTotals([Line(Catalog.VegetableBox(), 1), Line(Catalog.SaladGreens(), 2)]).tax == 27976
    ensures CartPage.CartSummary([Line(Catalog.VegetableBox(), 1), Line(Catalog.SaladGreens(), 2)]).tax == 280
  {
    CartPage.SampleSummary();
  }

  // ---------------------------------------------------------------------
  // The order request's credential

  /** `useAuth().token`: the provider shares `currentUser`, `login`,
      `register`, `logout` and `googleLogin`, and no `token`, so the lookup
      is `undefined` whatever the session. */
  function ContextToken(s: Auth.Session): Option<string> {
    None
  }

  /** A template literal's text for a value that may be `undefined`. */
  function Interpolate(v: Option<string>): string {
    match v
    case None => "undefined"
    case Some(t) => t
  }

  /** The `Authorization` header the order request carries as written. */
  function OrderAuthorizationAsWritten(s: Auth.Session): string {
    Auth.BearerPrefix + Interpolate(ContextToken(s))
  }

  /** As written, a signed-in shopper's order goes out with the credential
      `Bearer undefined` instead of their token. */
  lemma AsWrittenDropsToken(s: Auth.Session, u: User, t: string)
    requires t != "undefined"
    ensures OrderAuthorizationAsWritten(Auth.Login(s, u, t)) == "Bearer undefined"
    ensures OrderAuthorizationAsWritten(Auth.Login(s, u, t)) != Auth.Bearer(t)
  {
    var h := OrderAuthorizationAsWritten(Auth.Login(s, u, t));
    Auth.BearerRoundTrip(t, h);
    assert Auth.TokenOf(h) == Some("undefined") by {
      Auth.BearerRoundTrip("undefined", h);
    }
  }

  /** The header evidently intended: the stored session token, when there
      is one. */
  function OrderAuthorization(s: Auth.Session): Option<string> {
    if Auth.TokenKey in s.storage then Some(Auth.Bearer(s.storage[Auth.TokenKey])) else None
  }

  /** The intended header follows the session: after `login` it carries the
      new token, the same header the client installs as its default; after
      `logout` there is none; after a reload it is the restored default. */
  lemma OrderAuthorizationFollowsSession(s: Auth.Session, u: User, t: string)
    ensures OrderAuthorization(Auth.Login(s, u, t)) == Some(Auth.Bearer(t))
    ensures OrderAuthorization(Auth.Login(s, u, t)) == Auth.Login(s, u, t).authorization
    ensures OrderAuthorization(Auth.Logout(s)).None?
    ensures var r := Auth.Restore(s.storage);
      r.Ready? && r.session.currentUser.Some? ==> OrderAuthorization(r.session) == r.session.authorization
  {
  }
}
