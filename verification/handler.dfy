/** The `/create-payment-intent` handler: validate the body, build and send
    the processor request, and map the processor's answer to the response. */
module Handler {
  import opened Base
  import opened Json
  import opened Text
  import opened Schema
  import opened Outbound
  import opened Reply

  /** What one call of the handler does: the request it sends to the
      processor, if any, and the response it gives the caller. */
  datatype Handled = Handled(sent: Option<ProcessorRequest>, response: Response)

  /** `error.details.map(d => d.message)`. */
  function ErrorMessages(violations: seq<Violation>): (messages: seq<string>)
    ensures |messages| == |violations|
    ensures forall i | 0 <= i < |violations| :: messages[i] == Message(violations[i])
  {
    seq(|violations|, i requires 0 <= i < |violations| => Message(violations[i]))
  }

  /** One call of the handler; `answer` is what posting the request yields. */
  function Handle(raw: RawRequest, syntax: Syntax, answer: Exchange): (h: Handled)
    ensures h.sent.Some? <==> Accepts(raw, syntax)
    ensures h.sent.Some? ==> h.sent.value == BuildRequest(Typed(raw, syntax)) && h.response == Interpret(answer)
    ensures h.sent.None? ==> h.response.status == 400 && h.response.body.Invalid?
    ensures h.response.body.Success() <==> Accepts(raw, syntax) && Redirected(answer)
    ensures OkStatus(h.response.status) <==> h.response.body.Success()
  {
    match Validate(raw, syntax)
    case Failure(violations) => Handled(None, Response(400, Invalid(ErrorMessages(violations))))
    case Success(p) =>
      assert p == Typed(raw, syntax);
      Handled(Some(BuildRequest(p)), Interpret(answer))
  }

  /** A body that fails validation gets a 400 listing one message per
      violated rule, in schema order, and nothing is sent. */
  lemma RejectionListsEveryViolation(raw: RawRequest, syntax: Syntax, answer: Exchange)
    requires !Accepts(raw, syntax)
    ensures var h := Handle(raw, syntax, answer);
      && h.sent.None?
      && h.response.status == 400
      && !h.response.body.Success()
      && h.response.body == Invalid(ErrorMessages(Violations(raw, syntax)))
      && h.response.body.errors != []
      && (forall k: Key, rule: Rule :: Fails(k, ValueOf(raw, k), rule, syntax) ==>
            Message(Violation(k, rule)) in h.response.body.errors)
      && (forall i | 0 <= i < |Violations(raw, syntax)| ::
            Fails(Violations(raw, syntax)[i].key, ValueOf(raw, Violations(raw, syntax)[i].key),
                  Violations(raw, syntax)[i].rule, syntax))
  {
    var vs := Violations(raw, syntax);
    ViolationsExact(raw, syntax);
    NoViolationsIffAccepts(raw, syntax);
    var errors := ErrorMessages(vs);
    forall k: Key, rule: Rule | Fails(k, ValueOf(raw, k), rule, syntax)
      ensures Message(Violation(k, rule)) in errors
    {
      assert Violation(k, rule) in vs;
      var i :| 0 <= i < |vs| && vs[i] == Violation(k, rule);
      assert errors[i] == Message(Violation(k, rule));
    }
    forall i | 0 <= i < |vs| ensures Fails(vs[i].key, ValueOf(raw, vs[i].key), vs[i].rule, syntax) {
      assert vs[i] in vs;
    }
  }

  /** Whether the body is rejected does not depend on the processor: no
      answer can change the response to a rejected body. */
  lemma RejectionIgnoresProcessor(raw: RawRequest, syntax: Syntax, a: Exchange, b: Exchange)
    requires !Accepts(raw, syntax)
    ensures Handle(raw, syntax, a) == Handle(raw, syntax, b)
  {
  }

  /** The request sent for an accepted body carries the client's values. */
  lemma SentRequestCarriesInput(raw: RawRequest, syntax: Syntax, answer: Exchange)
    requires Accepts(raw, syntax)
    ensures var q := Handle(raw, syntax, answer).sent.value;
      && Str(q.email) == raw.customerEmail
      && Str(q.currency) == raw.currency
      && Str(q.returnUrl) == raw.returnUrl
      && Str(q.notifyUrl) == raw.notifyUrl
      && Str(q.merchantRef) == raw.merchantRef
      && q.description == (if raw.description.Str? then raw.description.s else "Payment for order " + raw.merchantRef.s)
      && q.amountCents as real == raw.amount.n * 100.0
      && q.amountCents > 0
      && (raw.customerName == Undefined ==> q.firstName == "" && q.lastName == "")
      && (q.firstName, q.lastName) == SplitName(OptionalString(raw.customerName))
      && (raw.customerName.Str? ==> q.firstName == raw.customerName.s[..IndexOf(raw.customerName.s, ' ')])
      && (raw.customerName.Str? && ' ' in raw.customerName.s ==>
            q.lastName == raw.customerName.s[IndexOf(raw.customerName.s, ' ') + 1..])
      && (raw.customerName.Str? && ' ' in raw.customerName.s ==> q.firstName + " " + q.lastName == raw.customerName.s)
      && (raw.customerName.Str? && ' ' !in raw.customerName.s ==> q.firstName == raw.customerName.s && q.lastName == "")
      && (raw.country == Undefined ==> q.country.None?)
      && (raw.country.Str? ==> q.country == Some(raw.country.s))
  {
    var p := Typed(raw, syntax);
    assert Carries(p, raw);
  }
}
