/** The declarative input rules of `paymentSchema` and their evaluation with
    `abortEarly: false`: every violated rule of every key is reported, keys in
    the order the schema declares them. */
module Schema {
  import opened Base
  import opened Json
  import opened Text

  /** The keys `paymentSchema` declares, one constructor per key. */
  datatype Key =
    | Amount | Currency | CustomerEmail | ReturnUrl | NotifyUrl
    | Description | CustomerName | MerchantRef | Address | City
    | State | Zip | Country | Phone | Metadata

  /** The keys in declaration order, which is the order errors are reported in. */
  const Keys: seq<Key> :=
    [Amount, Currency, CustomerEmail, ReturnUrl, NotifyUrl,
     Description, CustomerName, MerchantRef, Address, City,
     State, Zip, Country, Phone, Metadata]

  /** The key as it is spelled in the request body. */
  function Name(k: Key): string {
    match k
    case Amount => "amount"
    case Currency => "currency"
    case CustomerEmail => "customerEmail"
    case ReturnUrl => "returnUrl"
    case NotifyUrl => "notifyUrl"
    case Description => "description"
    case CustomerName => "customerName"
    case MerchantRef => "merchantRef"
    case Address => "address"
    case City => "city"
    case State => "state"
    case Zip => "zip"
    case Country => "country"
    case Phone => "phone"
    case Metadata => "metadata"
  }

  /** A syntax a string rule may demand on top of its length rules. */
  datatype Format = Plain | Email | Uri

  /** The rules one key of the schema carries. */
  datatype KeyRules =
    | NumberRules(required: bool, positive: bool, precision: Option<nat>)
    | StringRules(required: bool, length: Option<nat>, max: Option<nat>, uppercase: bool, format: Format)
    | ObjectRules(required: bool)

  /** `paymentSchema`, key by key. */
  function RulesOf(k: Key): KeyRules {
    match k
    case Amount => NumberRules(true, true, Some(2))
    case Currency => StringRules(true, Some(3), None, true, Plain)
    case CustomerEmail => StringRules(true, None, None, false, Email)
    case ReturnUrl => StringRules(true, None, None, false, Uri)
    case NotifyUrl => StringRules(true, None, None, false, Uri)
    case Description => StringRules(false, None, Some(255), false, Plain)
    case CustomerName => StringRules(false, None, Some(100), false, Plain)
    case MerchantRef => StringRules(true, None, Some(50), false, Plain)
    case Address => StringRules(false, None, Some(255), false, Plain)
    case City => StringRules(false, None, Some(100), false, Plain)
    case State => StringRules(false, None, Some(100), false, Plain)
    case Zip => StringRules(false, None, Some(20), false, Plain)
    case Country => StringRules(false, Some(2), None, true, Plain)
    case Phone => StringRules(false, None, Some(20), false, Plain)
    case Metadata => ObjectRules(false)
  }

  /** The rules a value can violate, named after Joi's error codes. */
  datatype Rule =
    | AnyRequired
    | NumberBase | NumberPositive | NumberPrecision
    | StringBase | StringEmpty | StringLength | StringMax | StringUppercase | StringEmail | StringUri
    | ObjectBase

  /** One entry of the validation error's `details`. */
  datatype Violation = Violation(key: Key, rule: Rule)

  /** The email and URI grammars, which live inside the validation library. */
  datatype Syntax = Syntax(isEmail: string -> bool, isUri: string -> bool)

  /** The request body as received; a key the client left out is `Undefined`. */
  datatype RawRequest = RawRequest(
    amount: Value, currency: Value, customerEmail: Value, returnUrl: Value, notifyUrl: Value,
    description: Value, customerName: Value, merchantRef: Value, address: Value, city: Value,
    state: Value, zip: Value, country: Value, phone: Value, metadata: Value)

  function ValueOf(r: RawRequest, k: Key): Value {
    match k
    case Amount => r.amount
    case Currency => r.currency
    case CustomerEmail => r.customerEmail
    case ReturnUrl => r.returnUrl
    case NotifyUrl => r.notifyUrl
    case Description => r.description
    case CustomerName => r.customerName
    case MerchantRef => r.merchantRef
    case Address => r.address
    case City => r.city
    case State => r.state
    case Zip => r.zip
    case Country => r.country
    case Phone => r.phone
    case Metadata => r.metadata
  }

  /** `x` has at most `places` decimal places: shifting the point `places`
      digits to the right leaves an integer. */
  predicate HasPrecision(x: real, places: nat)
    decreases places
  {
    if places == 0 then x.Floor as real == x else HasPrecision(x * 10.0, places - 1)
  }

  /** `[x]` when `c` holds, else nothing. */
  function When(c: bool, x: Violation): seq<Violation> {
    if c then [x] else []
  }

  /** The violations one key's value produces. A missing value violates at most
      `required`; a value of the wrong type, or an empty string, violates only
      its base rule; any other value is checked against every rule of the key. */
  function KeyViolations(k: Key, v: Value, syntax: Syntax): seq<Violation> {
    var rules := RulesOf(k);
    if v.Undefined? then When(rules.required, Violation(k, AnyRequired))
    else match rules
      case NumberRules(_, positive, precision) =>
        if !v.Num? then [Violation(k, NumberBase)]
        else NumberChecks(k, v.n, positive, precision)
      case StringRules(_, length, max, uppercase, format) =>
        if !v.Str? then [Violation(k, StringBase)]
        else if v.s == "" then [Violation(k, StringEmpty)]
        else StringChecks(k, v.s, length, max, uppercase, format, syntax)
      case ObjectRules(_) =>
        When(!v.Obj?, Violation(k, ObjectBase))
  }

  /** The rules of a number, in the order the schema chains them. */
  function NumberChecks(k: Key, n: real, positive: bool, precision: Option<nat>): seq<Violation> {
    When(positive && n <= 0.0, Violation(k, NumberPositive))
    + When(precision.Some? && !HasPrecision(n, precision.value), Violation(k, NumberPrecision))
  }

  /** The rules of a non-empty string, in the order the schema chains them. */
  function StringChecks(k: Key, s: string, length: Option<nat>, max: Option<nat>, uppercase: bool,
                        format: Format, syntax: Syntax): seq<Violation> {
    When(length.Some? && |s| != length.value, Violation(k, StringLength))
    + When(max.Some? && |s| > max.value, Violation(k, StringMax))
    + When(uppercase && !IsUpperCase(s), Violation(k, StringUppercase))
    + When(format == Email && !syntax.isEmail(s), Violation(k, StringEmail))
    + When(format == Uri && !syntax.isUri(s), Violation(k, StringUri))
  }

  /** Rule by rule, when a value of a key with `rules` is reported as
      violating `rule`: the value reaches the rule (it is present, of the key's
      type and, for a string, not empty) and does not satisfy it. */
  predicate Violates(rules: KeyRules, v: Value, rule: Rule, syntax: Syntax) {
    var text := v.Str? && v.s != "";
    match rule
    case AnyRequired => rules.required && v == Undefined
    case NumberBase => rules.NumberRules? && v != Undefined && !v.Num?
    case NumberPositive => rules.NumberRules? && rules.positive && v.Num? && v.n <= 0.0
    case NumberPrecision =>
      rules.NumberRules? && rules.precision.Some? && v.Num? && !HasPrecision(v.n, rules.precision.value)
    case StringBase => rules.StringRules? && v != Undefined && !v.Str?
    case StringEmpty => rules.StringRules? && v == Str("")
    case StringLength => rules.StringRules? && rules.length.Some? && text && |v.s| != rules.length.value
    case StringMax => rules.StringRules? && rules.max.Some? && text && |v.s| > rules.max.value
    case StringUppercase => rules.StringRules? && rules.uppercase && text && !IsUpperCase(v.s)
    case StringEmail => rules.StringRules? && rules.format == Email && text && !syntax.isEmail(v.s)
    case StringUri => rules.StringRules? && rules.format == Uri && text && !syntax.isUri(v.s)
    case ObjectBase => rules.ObjectRules? && v != Undefined && !v.Obj?
  }

  /** Value `v` of key `k` is reported as violating `rule`. */
  predicate Fails(k: Key, v: Value, rule: Rule, syntax: Syntax) {
    Violates(RulesOf(k), v, rule, syntax)
  }

  /** A key reports exactly its failing rules, each once. */
  lemma KeyViolationsExact(k: Key, v: Value, syntax: Syntax)
    ensures forall x :: x in KeyViolations(k, v, syntax) <==> x.key == k && Fails(k, v, x.rule, syntax)
    ensures Distinct(KeyViolations(k, v, syntax))
  {
    var rules := RulesOf(k);
    var vs := KeyViolations(k, v, syntax);
    if v.Undefined? {
      assert vs == When(rules.required, Violation(k, AnyRequired));
      BaseOnly(k, rules, v, AnyRequired, rules.required, syntax);
    } else if rules.NumberRules? {
      if v.Num? {
        assert vs == NumberChecks(k, v.n, rules.positive, rules.precision);
        NumberChecksExact(k, rules, v, syntax);
      } else {
        assert vs == [Violation(k, NumberBase)];
        BaseOnly(k, rules, v, NumberBase, true, syntax);
      }
    } else if rules.StringRules? {
      if !v.Str? {
        assert vs == [Violation(k, StringBase)];
        BaseOnly(k, rules, v, StringBase, true, syntax);
      } else if v.s == "" {
        assert vs == [Violation(k, StringEmpty)];
        BaseOnly(k, rules, v, StringEmpty, true, syntax);
      } else {
        assert vs == StringChecks(k, v.s, rules.length, rules.max, rules.uppercase, rules.format, syntax);
        StringChecksExact(k, rules, v, syntax);
      }
    } else {
      assert vs == When(!v.Obj?, Violation(k, ObjectBase));
      BaseOnly(k, rules, v, ObjectBase, !v.Obj?, syntax);
    }
  }

  /** A value that stops at one rule violates that rule alone. */
  lemma BaseOnly(k: Key, rules: KeyRules, v: Value, only: Rule, fails: bool, syntax: Syntax)
    requires forall rule: Rule :: Violates(rules, v, rule, syntax) <==> fails && rule == only
    ensures forall x :: x in When(fails, Violation(k, only)) <==> x.key == k && Violates(rules, v, x.rule, syntax)
    ensures Distinct(When(fails, Violation(k, only)))
  {
  }

  lemma NumberChecksExact(k: Key, rules: KeyRules, v: Value, syntax: Syntax)
    requires rules.NumberRules? && v.Num?
    ensures var vs := NumberChecks(k, v.n, rules.positive, rules.precision);
      && (forall x :: x in vs <==> x.key == k && Violates(rules, v, x.rule, syntax))
      && Distinct(vs)
  {
    var a := When(rules.positive && v.n <= 0.0, Violation(k, NumberPositive));
    var b := When(rules.precision.Some? && !HasPrecision(v.n, rules.precision.value), Violation(k, NumberPrecision));
    DistinctConcat(a, b);
    forall x: Violation ensures x in a + b <==> x.key == k && Violates(rules, v, x.rule, syntax) {
      assert x in a + b <==> x in a || x in b;
    }
  }

  lemma StringChecksExact(k: Key, rules: KeyRules, v: Value, syntax: Syntax)
    requires rules.StringRules? && v.Str? && v.s != ""
    ensures var vs := StringChecks(k, v.s, rules.length, rules.max, rules.uppercase, rules.format, syntax);
      && (forall x :: x in vs <==> x.key == k && Violates(rules, v, x.rule, syntax))
      && Distinct(vs)
  {
    var s := v.s;
    FiveChecks(k, rules.length.Some? && |s| != rules.length.value, rules.max.Some? && |s| > rules.max.value,
               rules.uppercase && !IsUpperCase(s), rules.format == Email && !syntax.isEmail(s),
               rules.format == Uri && !syntax.isUri(s));
    forall x: Violation {
      StringRuleCases(k, rules, v, x, syntax);
    }
  }

  /** The five optional string checks report each of their rules at most once. */
  lemma FiveChecks(k: Key, length: bool, max: bool, uppercase: bool, email: bool, uri: bool)
    ensures var vs := When(length, Violation(k, StringLength)) + When(max, Violation(k, StringMax))
                      + When(uppercase, Violation(k, StringUppercase)) + When(email, Violation(k, StringEmail))
                      + When(uri, Violation(k, StringUri));
      && (forall x :: x in vs <==>
            || (x == Violation(k, StringLength) && length)
            || (x == Violation(k, StringMax) && max)
            || (x == Violation(k, StringUppercase) && uppercase)
            || (x == Violation(k, StringEmail) && email)
            || (x == Violation(k, StringUri) && uri))
      && Distinct(vs)
  {
    var a := When(length, Violation(k, StringLength));
    var b := When(max, Violation(k, StringMax));
    var c := When(uppercase, Violation(k, StringUppercase));
    var d := When(email, Violation(k, StringEmail));
    var e := When(uri, Violation(k, StringUri));
    DistinctConcat(a, b);
    DistinctConcat(a + b, c);
    DistinctConcat(a + b + c, d);
    DistinctConcat(a + b + c + d, e);
  }

  /** Which string check reports which rule. */
  lemma StringRuleCases(k: Key, rules: KeyRules, v: Value, x: Violation, syntax: Syntax)
    requires rules.StringRules? && v.Str? && v.s != ""
    ensures x.key == k && Violates(rules, v, x.rule, syntax) <==>
      || (x == Violation(k, StringLength) && rules.length.Some? && |v.s| != rules.length.value)
      || (x == Violation(k, StringMax) && rules.max.Some? && |v.s| > rules.max.value)
      || (x == Violation(k, StringUppercase) && rules.uppercase && !IsUpperCase(v.s))
      || (x == Violation(k, StringEmail) && rules.format == Email && !syntax.isEmail(v.s))
      || (x == Violation(k, StringUri) && rules.format == Uri && !syntax.isUri(v.s))
  {
  }

  /** The violations of the values of `keys`, key after key. */
  function Collect(r: RawRequest, keys: seq<Key>, syntax: Syntax): seq<Violation>
    decreases |keys|
  {
    if keys == [] then []
    else KeyViolations(keys[0], ValueOf(r, keys[0]), syntax) + Collect(r, keys[1..], syntax)
  }

  /** `error.details` of `paymentSchema.validate(body, { abortEarly: false })`. */
  function Violations(r: RawRequest, syntax: Syntax): seq<Violation> {
    Collect(r, Keys, syntax)
  }

  lemma {:induction false} CollectExact(r: RawRequest, keys: seq<Key>, syntax: Syntax)
    ensures forall x :: x in Collect(r, keys, syntax) <==> x.key in keys && Fails(x.key, ValueOf(r, x.key), x.rule, syntax)
    decreases |keys|
  {
    if keys != [] {
      KeyViolationsExact(keys[0], ValueOf(r, keys[0]), syntax);
      CollectExact(r, keys[1..], syntax);
      assert forall k :: k in keys <==> k == keys[0] || k in keys[1..];
    }
  }

  lemma {:induction false} CollectDistinct(r: RawRequest, keys: seq<Key>, syntax: Syntax)
    requires Distinct(keys)
    ensures Distinct(Collect(r, keys, syntax))
    decreases |keys|
  {
    if keys != [] {
      var head := KeyViolations(keys[0], ValueOf(r, keys[0]), syntax);
      KeyViolationsExact(keys[0], ValueOf(r, keys[0]), syntax);
      DistinctTail(keys);
      CollectDistinct(r, keys[1..], syntax);
      CollectExact(r, keys[1..], syntax);
      DistinctConcat(head, Collect(r, keys[1..], syntax));
    }
  }

  /** The position of `k` in `Keys`. */
  function Position(k: Key): nat {
    match k
    case Amount => 0
    case Currency => 1
    case CustomerEmail => 2
    case ReturnUrl => 3
    case NotifyUrl => 4
    case Description => 5
    case CustomerName => 6
    case MerchantRef => 7
    case Address => 8
    case City => 9
    case State => 10
    case Zip => 11
    case Country => 12
    case Phone => 13
    case Metadata => 14
  }

  /** Every key of the schema is validated, and none twice. */
  lemma KeysListEachKeyOnce()
    ensures forall k: Key :: Position(k) < |Keys| && Keys[Position(k)] == k
    ensures Distinct(Keys)
  {
    forall i | 0 <= i < |Keys| ensures Position(Keys[i]) == i {
    }
  }

  /** The reported violations are exactly the failing rules of all keys, each
      reported once. */
  lemma ViolationsExact(r: RawRequest, syntax: Syntax)
    ensures forall x :: x in Violations(r, syntax) <==> Fails(x.key, ValueOf(r, x.key), x.rule, syntax)
    ensures Distinct(Violations(r, syntax))
  {
    KeysListEachKeyOnce();
    assert forall k: Key :: k in Keys by {
      forall k: Key ensures k in Keys {
        assert Keys[Position(k)] == k;
      }
    }
    CollectExact(r, Keys, syntax);
    CollectDistinct(r, Keys, syntax);
  }

  /** An optional text field: absent, or a non-empty string of at most `max` characters. */
  predicate OptionalText(v: Value, max: nat) {
    v == Undefined || (v.Str? && v.s != "" && |v.s| <= max)
  }

  /** A required text field in the given syntax. */
  predicate RequiredText(v: Value, syntax: string -> bool) {
    v.Str? && v.s != "" && syntax(v.s)
  }

  /** The request bodies `paymentSchema` accepts, stated field by field. */
  predicate Accepts(r: RawRequest, syntax: Syntax) {
    && r.amount.Num? && r.amount.n > 0.0 && HasPrecision(r.amount.n, 2)
    && r.currency.Str? && |r.currency.s| == 3 && IsUpperCase(r.currency.s)
    && RequiredText(r.customerEmail, syntax.isEmail)
    && RequiredText(r.returnUrl, syntax.isUri)
    && RequiredText(r.notifyUrl, syntax.isUri)
    && OptionalText(r.description, 255)
    && OptionalText(r.customerName, 100)
    && r.merchantRef.Str? && r.merchantRef.s != "" && |r.merchantRef.s| <= 50
    && OptionalText(r.address, 255)
    && OptionalText(r.city, 100)
    && OptionalText(r.state, 100)
    && OptionalText(r.zip, 20)
    && (r.country == Undefined || (r.country.Str? && |r.country.s| == 2 && IsUpperCase(r.country.s)))
    && OptionalText(r.phone, 20)
    && (r.metadata == Undefined || r.metadata.Obj?)
  }

  /** Validation reports nothing exactly when the body is acceptable. */
  lemma NoViolationsIffAccepts(r: RawRequest, syntax: Syntax)
    ensures Violations(r, syntax) == [] <==> Accepts(r, syntax)
  {
    ViolationsExact(r, syntax);
    var vs := Violations(r, syntax);
    if vs == [] {
      forall k: Key, rule: Rule ensures !Fails(k, ValueOf(r, k), rule, syntax) {
        assert Violation(k, rule) !in vs;
      }
      CleanKeyAccepts(r, syntax);
    } else {
      var x := vs[0];
      assert x in vs;
      FailingKeyRejects(r, x.key, x.rule, syntax);
    }
  }

  lemma CleanKeyAccepts(r: RawRequest, syntax: Syntax)
    requires forall k: Key, rule: Rule :: !Fails(k, ValueOf(r, k), rule, syntax)
    ensures Accepts(r, syntax)
  {
    AmountClean(r, syntax);
    CodeKeyClean(r, Currency, syntax);
    CodeKeyClean(r, Country, syntax);
    TextKeyClean(r, CustomerEmail, syntax);
    TextKeyClean(r, ReturnUrl, syntax);
    TextKeyClean(r, NotifyUrl, syntax);
    TextKeyClean(r, Description, syntax);
    TextKeyClean(r, CustomerName, syntax);
    TextKeyClean(r, MerchantRef, syntax);
    TextKeyClean(r, Address, syntax);
    TextKeyClean(r, City, syntax);
    TextKeyClean(r, State, syntax);
    TextKeyClean(r, Zip, syntax);
    TextKeyClean(r, Phone, syntax);
    assert !Fails(Metadata, ValueOf(r, Metadata), ObjectBase, syntax);
  }

  lemma AmountClean(r: RawRequest, syntax: Syntax)
    requires forall rule: Rule :: !Fails(Amount, ValueOf(r, Amount), rule, syntax)
    ensures r.amount.Num? && r.amount.n > 0.0 && HasPrecision(r.amount.n, 2)
  {
    var v := ValueOf(r, Amount);
    assert !Fails(Amount, v, AnyRequired, syntax) && !Fails(Amount, v, NumberBase, syntax);
    assert !Fails(Amount, v, NumberPositive, syntax) && !Fails(Amount, v, NumberPrecision, syntax);
  }

  /** A key holding an upper-case code of fixed length (currency, country). */
  lemma CodeKeyClean(r: RawRequest, k: Key, syntax: Syntax)
    requires k == Currency || k == Country
    requires forall rule: Rule :: !Fails(k, ValueOf(r, k), rule, syntax)
    ensures var v := ValueOf(r, k);
      && (k == Currency ==> v != Undefined)
      && (v != Undefined ==> v.Str? && |v.s| == RulesOf(k).length.value && IsUpperCase(v.s))
  {
    var v := ValueOf(r, k);
    assert !Fails(k, v, AnyRequired, syntax) && !Fails(k, v, StringBase, syntax) && !Fails(k, v, StringEmpty, syntax);
    assert !Fails(k, v, StringLength, syntax) && !Fails(k, v, StringUppercase, syntax);
  }

  /** A string key none of whose rules fails holds a value its rules accept. */
  lemma TextKeyClean(r: RawRequest, k: Key, syntax: Syntax)
    requires RulesOf(k).StringRules?
    requires forall rule: Rule :: !Fails(k, ValueOf(r, k), rule, syntax)
    ensures var rules := RulesOf(k); var v := ValueOf(r, k);
      && (rules.required ==> v != Undefined)
      && (v != Undefined ==> v.Str? && v.s != "")
      && (v.Str? && rules.max.Some? ==> |v.s| <= rules.max.value)
      && (v.Str? && rules.format == Email ==> syntax.isEmail(v.s))
      && (v.Str? && rules.format == Uri ==> syntax.isUri(v.s))
  {
    var v := ValueOf(r, k);
    assert !Fails(k, v, AnyRequired, syntax) && !Fails(k, v, StringBase, syntax) && !Fails(k, v, StringEmpty, syntax);
    assert !Fails(k, v, StringMax, syntax) && !Fails(k, v, StringEmail, syntax) && !Fails(k, v, StringUri, syntax);
  }

  lemma FailingKeyRejects(r: RawRequest, k: Key, rule: Rule, syntax: Syntax)
    requires Fails(k, ValueOf(r, k), rule, syntax)
    ensures !Accepts(r, syntax)
  {
  }

  /** `message` of a violation: the schema's own text where it declares one,
      otherwise the library's default template for the rule. */
  function Message(x: Violation): string {
    match CustomMessage(x)
    case Some(m) => m
    case None => DefaultMessage(x)
  }

  /** The texts the `.messages({...})` blocks of the schema declare. */
  function CustomMessage(x: Violation): Option<string> {
    match (x.key, x.rule)
    case (Amount, NumberBase) => Some("Amount must be a number.")
    case (Amount, NumberPositive) => Some("Amount must be positive.")
    case (Amount, NumberPrecision) => Some("Amount must have at most 2 decimal places.")
    case (Amount, AnyRequired) => Some("Amount is required.")
    case (Currency, StringBase) => Some("Currency must be a string.")
    case (Currency, StringLength) => Some("Currency must be 3 characters long (e.g., INR, USD).")
    case (Currency, StringUppercase) => Some("Currency must be uppercase.")
    case (Currency, AnyRequired) => Some("Currency is required.")
    case (CustomerEmail, StringBase) => Some("Customer email must be a string.")
    case (CustomerEmail, StringEmail) => Some("Customer email must be a valid email address.")
    case (CustomerEmail, AnyRequired) => Some("Customer email is required.")
    case (ReturnUrl, StringBase) => Some("Return URL must be a string.")
    case (ReturnUrl, StringUri) => Some("Return URL must be a valid URI.")
    case (ReturnUrl, AnyRequired) => Some("Return URL is required.")
    case (NotifyUrl, StringBase) => Some("Notify URL must be a string.")
    case (NotifyUrl, StringUri) => Some("Notify URL must be a valid URI.")
    case (NotifyUrl, AnyRequired) => Some("Notify URL is required.")
    case (MerchantRef, StringBase) => Some("Merchant reference must be a string.")
    case (MerchantRef, AnyRequired) => Some("Merchant reference is required.")
    case (MerchantRef, StringMax) => Some("Merchant reference must not exceed 50 characters.")
    case _ => None
  }

  /** The library's default message templates, with the quoted key as label. */
  function DefaultMessage(x: Violation): string {
    var quoted := ['"'] + Name(x.key) + ['"'];
    var rules := RulesOf(x.key);
    match x.rule
    case AnyRequired => quoted + " is required"
    case NumberBase => quoted + " must be a number"
    case NumberPositive => quoted + " must be a positive number"
    case NumberPrecision =>
      quoted + " must have no more than " + Decimal(if rules.NumberRules? && rules.precision.Some? then rules.precision.value else 0) + " decimal places"
    case StringBase => quoted + " must be a string"
    case StringEmpty => quoted + " is not allowed to be empty"
    case StringLength =>
      quoted + " length must be " + Decimal(if rules.StringRules? && rules.length.Some? then rules.length.value else 0) + " characters long"
    case StringMax =>
      quoted + " length must be less than or equal to " + Decimal(if rules.StringRules? && rules.max.Some? then rules.max.value else 0) + " characters long"
    case StringUppercase => quoted + " must only contain uppercase characters"
    case StringEmail => quoted + " must be a valid email"
    case StringUri => quoted + " must be a valid uri"
    case ObjectBase => quoted + " must be of type object"
  }

  /** The decimal digits of `n`. */
  function Decimal(n: nat): string
    decreases n
  {
    var digit := ["0123456789"[n % 10]];
    if n < 10 then digit else Decimal(n / 10) + digit
  }

  /** The validated request: the same values, typed. */
  datatype Payment = Payment(
    amount: real, currency: string, customerEmail: string, returnUrl: string, notifyUrl: string,
    description: Option<string>, customerName: Option<string>, merchantRef: string,
    address: Option<string>, city: Option<string>, state: Option<string>, zip: Option<string>,
    country: Option<string>, phone: Option<string>, metadata: Option<Value>)

  /** An optional string value as the handler reads it. */
  function OptionalString(v: Value): Option<string> {
    if v.Str? then Some(v.s) else None
  }

  /** `p` holds exactly the values of `r`. */
  predicate Carries(p: Payment, r: RawRequest) {
    && r.amount == Num(p.amount)
    && r.currency == Str(p.currency)
    && r.customerEmail == Str(p.customerEmail)
    && r.returnUrl == Str(p.returnUrl)
    && r.notifyUrl == Str(p.notifyUrl)
    && r.merchantRef == Str(p.merchantRef)
    && (r.description == if p.description.Some? then Str(p.description.value) else Undefined)
    && (r.customerName == if p.customerName.Some? then Str(p.customerName.value) else Undefined)
    && (r.address == if p.address.Some? then Str(p.address.value) else Undefined)
    && (r.city == if p.city.Some? then Str(p.city.value) else Undefined)
    && (r.state == if p.state.Some? then Str(p.state.value) else Undefined)
    && (r.zip == if p.zip.Some? then Str(p.zip.value) else Undefined)
    && (r.country == if p.country.Some? then Str(p.country.value) else Undefined)
    && (r.phone == if p.phone.Some? then Str(p.phone.value) else Undefined)
    && (r.metadata == if p.metadata.Some? then p.metadata.value else Undefined)
  }

  /** `paymentSchema.validate(body, { abortEarly: false })`: either the typed
      payment or the non-empty list of every violated rule. */
  function Validate(r: RawRequest, syntax: Syntax): (res: Result<Payment, seq<Violation>>)
    ensures res.Success? <==> Accepts(r, syntax)
    ensures res.Success? ==> Carries(res.value, r)
    ensures res.Failure? ==> res.error == Violations(r, syntax) && res.error != []
  {
    var errors := Violations(r, syntax);
    NoViolationsIffAccepts(r, syntax);
    if errors != [] then Failure(errors) else Success(Typed(r, syntax))
  }

  /** The typed payment of an accepted body. */
  function Typed(r: RawRequest, syntax: Syntax): (p: Payment)
    requires Accepts(r, syntax)
    ensures Carries(p, r)
  {
    Payment(
        r.amount.n, r.currency.s, r.customerEmail.s, r.returnUrl.s, r.notifyUrl.s,
        OptionalString(r.description), OptionalString(r.customerName), r.merchantRef.s,
        OptionalString(r.address), OptionalString(r.city), OptionalString(r.state), OptionalString(r.zip),
        OptionalString(r.country), OptionalString(r.phone),
        if r.metadata.Obj? then Some(r.metadata) else None)
  }
}
