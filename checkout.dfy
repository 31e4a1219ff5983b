/** The checkout page: twelve form fields with a validator, the order it
    synthesises from the cart, and the order log it appends to in
    `localStorage` under "orders" before clearing the cart. */
module Checkout {
  import opened Browser
  import opened Text
  import opened Cart

  datatype Field =
    | FirstName | LastName | Email | Phone | Address | City | State | ZipCode
    | CardName | CardNumber | CardExpiry | CardCVV

  datatype FormData = FormData(
    firstName: string, lastName: string, email: string, phone: string,
    address: string, city: string, state: string, zipCode: string,
    cardName: string, cardNumber: string, cardExpiry: string, cardCVV: string)
  {
    /** The value of one field. */
    function Get(f: Field): string {
      match f
      case FirstName => firstName
      case LastName => lastName
      case Email => email
      case Phone => phone
      case Address => address
      case City => city
      case State => state
      case ZipCode => zipCode
      case CardName => cardName
      case CardNumber => cardNumber
      case CardExpiry => cardExpiry
      case CardCVV => cardCVV
    }

    /** The form with one field replaced. */
    function With(f: Field, v: string): (r: FormData)
      ensures r.Get(f) == v
      ensures forall g :: g != f ==> r.Get(g) == Get(g)
    {
      match f
      case FirstName => this.(firstName := v)
      case LastName => this.(lastName := v)
      case Email => this.(email := v)
      case Phone => this.(phone := v)
      case Address => this.(address := v)
      case City => this.(city := v)
      case State => this.(state := v)
      case ZipCode => this.(zipCode := v)
      case CardName => this.(cardName := v)
      case CardNumber => this.(cardNumber := v)
      case CardExpiry => this.(cardExpiry := v)
      case CardCVV => this.(cardCVV := v)
    }
  }

  const EmptyForm: FormData := FormData("", "", "", "", "", "", "", "", "", "", "", "")

  // ---------------------------------------------------------------------
  // Validation
  // ---------------------------------------------------------------------

  function RequiredMessage(f: Field): string {
    match f
    case FirstName => "First name is required"
    case LastName => "Last name is required"
    case Email => "Email is required"
    case Phone => "Phone is required"
    case Address => "Address is required"
    case City => "City is required"
    case State => "State is required"
    case ZipCode => "Zip code is required"
    case CardName => "Cardholder name is required"
    case CardNumber => "Card number is required"
    case CardExpiry => "Expiry date is required"
    case CardCVV => "CVV is required"
  }

  const InvalidEmail: string := "Email is invalid"

  /** A field is blank when nothing is left after trimming white space. */
  predicate IsBlank(s: string) {
    Trim(s) == ""
  }

  /** `\S+`: a non-empty run without white space. */
  predicate NonSpaceRun(s: string) {
    |s| > 0 && forall k | 0 <= k < |s| :: !IsSpace(s[k])
  }

  /** The regular expression `\S+@\S+\.\S+` matches `s[p..q]`, with the `@`
      at `a` and the `.` at `b`. */
  ghost predicate MatchAt(s: string, p: int, a: int, b: int, q: int) {
    && 0 <= p < a < b < q <= |s|
    && s[a] == '@' && s[b] == '.'
    && NonSpaceRun(s[p..a]) && NonSpaceRun(s[a + 1..b]) && NonSpaceRun(s[b + 1..q])
  }

  /** The email pattern's test: the pattern is not anchored, so a match
      anywhere in `s` counts. */
  ghost predicate RegexTest(s: string) {
    exists p, a, b, q :: MatchAt(s, p, a, b, q)
  }

  /** The same test, computed from the shortest possible match: a non-space
      character before an `@`, a non-space run up to a `.`, and a non-space
      character after it. */
  predicate EmailShaped(s: string) {
    exists b | 0 < b < |s| - 1 :: s[b] == '.' && !IsSpace(s[b + 1]) && AtBefore(s, b)
  }

  /** Some `@` before position `b` has a non-space character before it and
      only non-space characters (at least one) between it and `b`. */
  predicate AtBefore(s: string, b: int)
    requires b < |s|
  {
    exists a | 0 < a < b - 1 :: s[a] == '@' && !IsSpace(s[a - 1]) && NonSpaceRun(s[a + 1..b])
  }

  /** The shortest match around an `@` and a `.` is a match. */
  lemma ShortestMatch(s: string, a: int, b: int)
    requires 0 < a < b - 1 && b < |s| - 1
    requires s[a] == '@' && !IsSpace(s[a - 1]) && NonSpaceRun(s[a + 1..b])
    requires s[b] == '.' && !IsSpace(s[b + 1])
    ensures RegexTest(s)
  {
    assert s[a - 1..a] == [s[a - 1]];
    assert s[b + 1..b + 2] == [s[b + 1]];
    assert MatchAt(s, a - 1, a, b, b + 2);
  }

  /** Any match contains a shortest one. */
  lemma MatchIsShaped(s: string, p: int, a: int, b: int, q: int)
    requires MatchAt(s, p, a, b, q)
    ensures EmailShaped(s)
  {
    assert s[p..a][a - 1 - p] == s[a - 1];
    assert s[b + 1..q][0] == s[b + 1];
    assert AtBefore(s, b);
  }

  lemma ShapedMatches(s: string)
    requires EmailShaped(s)
    ensures RegexTest(s)
  {
    var b :| 0 < b < |s| - 1 && s[b] == '.' && !IsSpace(s[b + 1]) && AtBefore(s, b);
    var a :| 0 < a < b - 1 && s[a] == '@' && !IsSpace(s[a - 1]) && NonSpaceRun(s[a + 1..b]);
    ShortestMatch(s, a, b);
  }

  /** The shortest match around an `@` and a `.` makes the string shaped. */
  lemma ShapedAt(s: string, a: int, b: int)
    requires 0 < a < b - 1 && b < |s| - 1
    requires s[a] == '@' && !IsSpace(s[a - 1]) && NonSpaceRun(s[a + 1..b])
    requires s[b] == '.' && !IsSpace(s[b + 1])
    ensures EmailShaped(s)
  {
    assert AtBefore(s, b);
  }

  lemma MatchesShaped(s: string)
    requires RegexTest(s)
    ensures EmailShaped(s)
  {
    var p, a, b, q :| MatchAt(s, p, a, b, q);
    MatchIsShaped(s, p, a, b, q);
  }

  /** The computable test and the pattern agree on every string. */
  lemma EmailShapedIsRegexTest(s: string)
    ensures EmailShaped(s) <==> RegexTest(s)
  {
    if EmailShaped(s) {
      ShapedMatches(s);
    }
    if RegexTest(s) {
      MatchesShaped(s);
    }
  }

  // ---------------------------------------------------------------------
  // The browser's own check of the email input
  // ---------------------------------------------------------------------

  /** A character allowed in the local part of a valid e-mail address
      (HTML Living Standard, section 4.10.5.1.5, "Email state"). */
  predicate LocalChar(c: char) {
    || ('a' <= c <= 'z') || ('A' <= c <= 'Z') || ('0' <= c <= '9')
    || c == '!' || ('#' <= c <= '\'') || c == '*' || c == '+' || ('-' <= c <= '/')
    || c == '=' || c == '?' || ('^' <= c <= '`') || ('{' <= c <= '~')
  }

  /** Printable ASCII other than the space is never white space. */
  lemma PrintableNotSpace(c: char)
    requires '!' <= c <= '~'
    ensures !IsSpace(c)
  {
  }

  /** An ASCII letter or digit. */
  predicate LetDig(c: char) {
    ('a' <= c <= 'z') || ('A' <= c <= 'Z') || ('0' <= c <= '9')
  }

  /** A domain label: 1 to 63 letters, digits and hyphens, beginning and
      ending with a letter or digit. */
  predicate Label(l: string) {
    && 1 <= |l| <= 63 && LetDig(l[0]) && LetDig(l[|l| - 1])
    && forall k | 0 <= k < |l| :: LetDig(l[k]) || l[k] == '-'
  }

  /** The position of the first `c` in `s`, or `|s|` when there is none. */
  function IndexOf(s: string, c: char): (r: nat)
    ensures r <= |s|
    ensures r < |s| ==> s[r] == c
  {
    if s == [] || s[0] == c then 0 else 1 + IndexOf(s[1..], c)
  }

  /** No `c` comes before `IndexOf(s, c)`; so it is `|s|` only when `s` has
      no `c` at all. */
  lemma {:induction false} IndexOfFirst(s: string, c: char)
    ensures forall k | 0 <= k < IndexOf(s, c) :: s[k] != c
    ensures c in s ==> IndexOf(s, c) < |s|
  {
    if s != [] && s[0] != c {
      IndexOfFirst(s[1..], c);
      assert forall k | 1 <= k < |s| :: s[k] == s[1..][k - 1];
      if c in s {
        assert c in s[1..];
      }
    }
  }

  /** One or more labels separated by dots. A label holds no dot, so the
      first dot ends the first label. */
  predicate Domain(d: string)
    decreases |d|
  {
    var k := IndexOf(d, '.');
    Label(d[..k]) && (k == |d| || Domain(d[k + 1..]))
  }

  /** A valid e-mail address: a non-empty local part, an `@`, a domain. The
      local part holds no `@`, so the first `@` separates them. */
  predicate ValidEmailAddress(s: string) {
    var a := IndexOf(s, '@');
    && 0 < a < |s|
    && (forall k | 0 <= k < a :: LocalChar(s[k]))
    && Domain(s[a + 1..])
  }

  /** The checkout form has no `noValidate` and its email input has type
      "email" without `required`: the browser fires the submit event only
      when that input is empty or holds a valid e-mail address. */
  predicate BrowserAcceptsEmail(s: string) {
    s == "" || ValidEmailAddress(s)
  }

  /** An address with a space in its local part passes the page's
      pattern. */
  lemma PatternPassesSpaced()
    ensures EmailShaped("a b@c.d")
  {
    var s := "a b@c.d";
    PrintableNotSpace(s[2]);
    PrintableNotSpace(s[4]);
    PrintableNotSpace(s[6]);
    assert s[4..5] == [s[4]];
    ShapedAt(s, 3, 5);
  }

  /** The browser rejects that same address, so it blocks a submit that the
      page's validator would have accepted. */
  lemma BrowserBlocksSpaced()
    ensures !BrowserAcceptsEmail("a b@c.d")
  {
    var s := "a b@c.d";
    IndexOfFirst(s, '@');
    assert s[0] != '@' && s[1] == ' ' && s[2] != '@' && s[3] == '@';
    assert IndexOf(s, '@') == 3;
    assert !LocalChar(s[1]);
  }

  /** A domain without a dot passes the browser but not the pattern, so
      such a submit reaches the validator and is rejected there. */
  lemma BrowserPassesPatternRejects()
    ensures BrowserAcceptsEmail("a@b") && !EmailShaped("a@b")
  {
    var t := "a@b";
    assert IndexOf(t, '@') == 1;
    assert t[2..] == "b";
    assert IndexOf("b", '.') == 1;
    assert "b"[..1] == "b";
  }

  /** A domain with a dot has a non-empty first label of non-space
      characters, and a letter or digit right after its first dot. */
  lemma DottedDomain(d: string, k: nat)
    requires Domain(d) && k == IndexOf(d, '.') && k < |d|
    ensures 0 < k < |d| - 1 && NonSpaceRun(d[..k]) && !IsSpace(d[k + 1])
  {
    assert Label(d[..k]);
    var e := d[k + 1..];
    var m := IndexOf(e, '.');
    assert Label(e[..m]);
    assert e[..m][0] == d[k + 1];
    PrintableNotSpace(d[k + 1]);
  }

  /** A valid address splits at its first `@` into a local part ending in a
      non-space character and a domain. */
  lemma AddressParts(s: string, a: nat)
    requires ValidEmailAddress(s) && a == IndexOf(s, '@')
    ensures 0 < a < |s| && s[a] == '@' && !IsSpace(s[a - 1]) && Domain(s[a + 1..])
  {
    assert LocalChar(s[a - 1]);
    PrintableNotSpace(s[a - 1]);
  }

  /** Whenever the browser accepts an address whose domain has at least two
      labels, the page's pattern accepts it too. */
  lemma BrowserDottedIsShaped(s: string)
    requires ValidEmailAddress(s) && '.' in s[IndexOf(s, '@') + 1..]
    ensures EmailShaped(s)
  {
    var a := IndexOf(s, '@');
    AddressParts(s, a);
    var d := s[a + 1..];
    var k := IndexOf(d, '.');
    IndexOfFirst(d, '.');
    DottedDomain(d, k);
    var b := a + 1 + k;
    assert s[a + 1..b] == d[..k];
    assert s[b + 1] == d[k + 1];
    ShapedAt(s, a, b);
  }

  /** The messages `validateForm` can record, and their wording. */
  datatype Message = Required(field: Field) | EmailInvalid

  function Wording(m: Message): string {
    match m
    case Required(f) => RequiredMessage(f)
    case EmailInvalid => InvalidEmail
  }

  /** The message `validateForm` records for one field, if any. */
  function Problem(form: FormData, f: Field): Option<Message> {
    if IsBlank(form.Get(f)) then Some(Required(f))
    else if f == Email && !EmailShaped(form.email) then Some(EmailInvalid)
    else None
  }

  /** The order in which `validateForm` checks the fields. */
  const FieldOrder: seq<Field> :=
    [FirstName, LastName, Email, Phone, Address, City, State, ZipCode,
     CardName, CardNumber, CardExpiry, CardCVV]

  lemma FieldListed(f: Field)
    ensures f in FieldOrder
  {
  }

  /** `newErrors` after the check of field `f`. */
  function Note(newErrors: map<Field, Message>, form: FormData, f: Field): map<Field, Message> {
    if Problem(form, f).Some? then newErrors[f := Problem(form, f).value] else newErrors
  }

  /** `newErrors` after the checks of the first `n` fields. */
  function ErrorsUpTo(form: FormData, n: nat): map<Field, Message>
    requires n <= |FieldOrder|
  {
    if n == 0 then map[] else Note(ErrorsUpTo(form, n - 1), form, FieldOrder[n - 1])
  }

  /** The `newErrors` record once every field has been checked. */
  function FormErrors(form: FormData): map<Field, Message> {
    ErrorsUpTo(form, |FieldOrder|)
  }

  lemma ErrorsStep(form: FormData, n: nat)
    requires 0 < n <= |FieldOrder|
    ensures ErrorsUpTo(form, n) == Note(ErrorsUpTo(form, n - 1), form, FieldOrder[n - 1])
  {
  }

  /** After `n` checks, exactly the checked fields with a problem carry an
      error, and it is that problem's message. */
  lemma {:induction false} ErrorsUpToFields(form: FormData, n: nat)
    requires n <= |FieldOrder|
    ensures forall f :: f in ErrorsUpTo(form, n) <==> f in FieldOrder[..n] && Problem(form, f).Some?
    ensures forall f :: f in ErrorsUpTo(form, n) ==> ErrorsUpTo(form, n)[f] == Problem(form, f).value
  {
    if n > 0 {
      ErrorsUpToFields(form, n - 1);
      assert FieldOrder[..n] == FieldOrder[..n - 1] + [FieldOrder[n - 1]];
    }
  }

  /** Field by field: a field carries an error exactly when it has a
      problem, and the error is that problem's message. */
  lemma FormErrorsFields(form: FormData, f: Field)
    ensures f in FormErrors(form) <==> Problem(form, f).Some?
    ensures f in FormErrors(form) ==> FormErrors(form)[f] == Problem(form, f).value
  {
    ErrorsUpToFields(form, |FieldOrder|);
    FieldListed(f);
    assert FieldOrder[..|FieldOrder|] == FieldOrder;
  }

  /** A "required" error is recorded for exactly the fields whose trimmed
      value is empty, that is, whose characters are all white space. */
  lemma RequiredExactlyForBlank(form: FormData, f: Field)
    ensures f in FormErrors(form) && FormErrors(form)[f] == Required(f) <==> AllSpace(form.Get(f))
    ensures f != Email ==> (f in FormErrors(form) <==> AllSpace(form.Get(f)))
  {
    TrimEmptyIffAllSpace(form.Get(f));
    FormErrorsFields(form, f);
  }

  /** The email field gets at most one message: "required" when blank,
      otherwise "invalid" when the untrimmed value fails the pattern. */
  lemma EmailMessage(form: FormData)
    ensures Email in FormErrors(form) <==> IsBlank(form.email) || !RegexTest(form.email)
    ensures Email in FormErrors(form) ==>
            FormErrors(form)[Email] == if IsBlank(form.email) then Required(Email) else EmailInvalid
  {
    EmailShapedIsRegexTest(form.email);
    FormErrorsFields(form, Email);
  }

  /** The form is valid exactly when no field is blank and the email
      passes the pattern. */
  lemma ValidIff(form: FormData)
    ensures FormErrors(form) == map[]
        <==> (forall f :: !IsBlank(form.Get(f))) && RegexTest(form.email)
  {
    EmailShapedIsRegexTest(form.email);
    if FormErrors(form) == map[] {
      forall f ensures !IsBlank(form.Get(f)) {
        FormErrorsFields(form, f);
      }
      FormErrorsFields(form, Email);
    } else {
      var f :| f in FormErrors(form);
      FormErrorsFields(form, f);
    }
  }

  /** One `if` of `validateForm`: a blank field gets its "required"
      message; the email, when not blank, gets "Email is invalid" if it
      fails the pattern. */
  method CheckField(newErrors: map<Field, Message>, form: FormData, f: Field) returns (r: map<Field, Message>)
    ensures r == Note(newErrors, form, f)
  {
    r := newErrors;
    if IsBlank(form.Get(f)) {
      r := r[f := Required(f)];
    } else if f == Email && !EmailShaped(form.email) {
      r := r[f := EmailInvalid];
    }
  }

  /** The body of `validateForm`: the twelve checks in source order. */
  method CollectErrors(form: FormData) returns (newErrors: map<Field, Message>)
    ensures newErrors == FormErrors(form)
  {
    newErrors := map[];
    newErrors := CheckField(newErrors, form, FirstName);
    newErrors := CheckField(newErrors, form, LastName);
    newErrors := CheckField(newErrors, form, Email);
    newErrors := CheckField(newErrors, form, Phone);
    newErrors := CheckField(newErrors, form, Address);
    newErrors := CheckField(newErrors, form, City);
    newErrors := CheckField(newErrors, form, State);
    newErrors := CheckField(newErrors, form, ZipCode);
    newErrors := CheckField(newErrors, form, CardName);
    newErrors := CheckField(newErrors, form, CardNumber);
    newErrors := CheckField(newErrors, form, CardExpiry);
    newErrors := CheckField(newErrors, form, CardCVV);
    ErrorsStep(form, 1);
    ErrorsStep(form, 2);
    ErrorsStep(form, 3);
    ErrorsStep(form, 4);
    ErrorsStep(form, 5);
    ErrorsStep(form, 6);
    ErrorsStep(form, 7);
    ErrorsStep(form, 8);
    ErrorsStep(form, 9);
    ErrorsStep(form, 10);
    ErrorsStep(form, 11);
    ErrorsStep(form, 12);
  }

  /** The `errors` state the page shows: each message's wording. */
  function Shown(newErrors: map<Field, Message>): (r: map<Field, string>)
    ensures r.Keys == newErrors.Keys
    ensures forall f :: f in r ==> r[f] != ""
  {
    map f | f in newErrors :: Wording(newErrors[f])
  }

  // ---------------------------------------------------------------------
  // Orders
  // ---------------------------------------------------------------------

  datatype ShippingAddress = ShippingAddress(
    firstName: string, lastName: string, address: string,
    city: string, state: string, zipCode: string)

  /** An entry of the order log. Subtotal, tax and total are all in
      hundredths of a cent, so that 8% of any subtotal is exact. */
  datatype Order = Order(
    orderId: string, date: string, items: seq<CartLine>,
    subtotal: int, tax: int, total: int,
    shippingAddress: ShippingAddress, status: string)

  /** The tax rate, in percent. */
  const TaxPercent: int := 8
  const OrdersKey: string := "orders"

  function ShippingOf(form: FormData): ShippingAddress {
    ShippingAddress(form.firstName, form.lastName, form.address, form.city, form.state, form.zipCode)
  }

  /** The order `handleSubmit` builds; `orderId` and `date` are the clock
      readings it takes. */
  function MakeOrder(orderId: string, date: string, items: seq<CartLine>, form: FormData): Order {
    var subtotal := CartTotal(items) * 100;
    var tax := CartTotal(items) * TaxPercent;
    Order(orderId, date, items, subtotal, tax, subtotal + tax, ShippingOf(form), "confirmed")
  }

  /** The order's items are the cart lines, its subtotal is Σ price ×
      quantity, tax is exactly 8% of it, the total is 108% of it, and its
      status is "confirmed". */
  lemma OrderAmounts(orderId: string, date: string, items: seq<CartLine>, form: FormData)
    ensures MakeOrder(orderId, date, items, form).items == items
    ensures MakeOrder(orderId, date, items, form).subtotal == 100 * Amount(items)
    ensures MakeOrder(orderId, date, items, form).tax * 100 == MakeOrder(orderId, date, items, form).subtotal * 8
    ensures MakeOrder(orderId, date, items, form).total == 108 * Amount(items)
    ensures MakeOrder(orderId, date, items, form).status == "confirmed"
  {
    TotalsAreSums(items);
  }

  /** The shipping address copies the six address fields; email, phone and
      card fields are not stored, so forms that differ only in them give the
      same order. */
  lemma OrderKeepsOnlyAddress(orderId: string, date: string, items: seq<CartLine>, f1: FormData, f2: FormData)
    requires forall f | f in {FirstName, LastName, Address, City, State, ZipCode} :: f1.Get(f) == f2.Get(f)
    ensures MakeOrder(orderId, date, items, f1) == MakeOrder(orderId, date, items, f2)
    ensures MakeOrder(orderId, date, items, f1).shippingAddress
         == ShippingAddress(f1.firstName, f1.lastName, f1.address, f1.city, f1.state, f1.zipCode)
  {
    assert f1.Get(FirstName) == f2.Get(FirstName);
    assert f1.Get(LastName) == f2.Get(LastName);
    assert f1.Get(Address) == f2.Get(Address);
    assert f1.Get(City) == f2.Get(City);
    assert f1.Get(State) == f2.Get(State);
    assert f1.Get(ZipCode) == f2.Get(ZipCode);
  }

  /** The stored order log: a missing or empty value reads as no orders,
      anything else is parsed. */
  function ReadOrders(raw: Option<string>, codec: Codec<seq<Order>>): Option<seq<Order>> {
    if Truthy(raw) then codec.decode(raw.value) else Some([])
  }

  /** After the log is written back, reading it gives the earlier entries
      unchanged followed by exactly the new order. */
  lemma AppendedLogReadsBack(log: seq<Order>, order: Order, codec: Codec<seq<Order>>)
    requires RoundTrips(codec)
    ensures ReadOrders(Some(codec.encode(log + [order])), codec) == Some(log + [order])
  {
  }

  datatype SubmitOutcome =
    | EmptyCartGuard    // the page shows "No Items in Cart" and has no form
    | BlockedByBrowser  // the email input failed the browser's check; no submit event
    | Rejected        // validation recorded errors
    | LogUnreadable   // the stored order log did not parse; the error escapes
    | Placed(order: Order)

  /** The checkout page's state over the cart it reads and clears. */
  class CheckoutPage {
    var form: FormData
    var errors: map<Field, string>
    const cart: CartStore
    const codec: Codec<seq<Order>>

    constructor (cart: CartStore, codec: Codec<seq<Order>>)
      ensures form == EmptyForm && errors == map[]
      ensures this.cart == cart && this.codec == codec
    {
      form := EmptyForm;
      errors := map[];
      this.cart := cart;
      this.codec := codec;
    }

    /** `handleChange`: sets that field, and blanks its error if it had a
        non-empty one; every other field and error is untouched. */
    method HandleChange(f: Field, value: string)
      modifies this
      ensures form == old(form).With(f, value)
      ensures errors == if f in old(errors) && old(errors)[f] != "" then old(errors)[f := ""] else old(errors)
      ensures forall g :: g != f ==> form.Get(g) == old(form).Get(g)
      ensures forall g :: g != f ==> (g in errors <==> g in old(errors)) && (g in errors ==> errors[g] == old(errors)[g])
    {
      form := form.With(f, value);
      if f in errors && errors[f] != "" {
        errors := errors[f := ""];
      }
    }

    /** `validateForm`. */
    method ValidateForm() returns (ok: bool)
      modifies this
      ensures form == old(form) && errors == Shown(FormErrors(form))
      ensures ok <==> FormErrors(form) == map[]
    {
      var newErrors := CollectErrors(form);
      errors := Shown(newErrors);
      ok := |newErrors| == 0;
    }

    /** Submitting the form: the form exists only when the cart is not
        empty, the browser's check of the email input comes next, and then
        `handleSubmit` runs. `orderId` and `date` stand for `ORD-${Date.now()}` and the
        ISO timestamp. */
    method HandleSubmit(orderId: string, date: string) returns (outcome: SubmitOutcome)
      modifies this, cart, cart.storage
      ensures form == old(form)
      ensures old(cart.items) == [] ==>
              outcome == EmptyCartGuard && errors == old(errors)
      ensures old(cart.items) != [] && !BrowserAcceptsEmail(form.email) ==>
              outcome == BlockedByBrowser && errors == old(errors)
      ensures old(cart.items) != [] && BrowserAcceptsEmail(form.email) ==> errors == Shown(FormErrors(form))
      ensures outcome == Rejected <==>
              old(cart.items) != [] && BrowserAcceptsEmail(form.email) && FormErrors(old(form)) != map[]
      ensures outcome.Placed? <==>
              old(cart.items) != [] && BrowserAcceptsEmail(form.email) && FormErrors(old(form)) == map[]
              && ReadOrders(old(cart.storage.GetItem(OrdersKey)), codec).Some?
      ensures outcome == LogUnreadable <==>
              old(cart.items) != [] && BrowserAcceptsEmail(form.email) && FormErrors(old(form)) == map[]
              && ReadOrders(old(cart.storage.GetItem(OrdersKey)), codec).None?
      ensures !outcome.Placed? ==>
              cart.items == old(cart.items) && cart.storage.entries == old(cart.storage.entries)
      ensures outcome.Placed? ==>
              && outcome.order == MakeOrder(orderId, date, old(cart.items), old(form))
              && cart.items == []
              && cart.storage.entries
                 == old(cart.storage.entries)
                      [OrdersKey := codec.encode(ReadOrders(old(cart.storage.GetItem(OrdersKey)), codec).value + [outcome.order])]
                      [CartKey := cart.codec.encode([])]
    {
      if cart.items == [] {
        return EmptyCartGuard;
      }
      if !BrowserAcceptsEmail(form.email) {
        return BlockedByBrowser;
      }
      var ok := ValidateForm();
      if !ok {
        return Rejected;
      }
      var order := MakeOrder(orderId, date, cart.items, form);
      var log := ReadOrders(cart.storage.GetItem(OrdersKey), codec);
      if log.None? {
        return LogUnreadable;
      }
      cart.storage.SetItem(OrdersKey, codec.encode(log.value + [order]));
      cart.ClearCart();
      outcome := Placed(order);
    }
  }
}
