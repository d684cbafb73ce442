/** How the processor's answer (or the failure to get one) becomes the
    response the caller receives. */
module Reply {
  import opened Base
  import opened Json

  /** The outcome of posting the request: the processor's HTTP status and
      parsed JSON body, or the message of the exception the call or the body
      parsing threw. */
  datatype Exchange = Answered(status: int, payload: Value) | Threw(message: string)

  /** The Fetch standard's `ok`: a status in the range 200 to 299. */
  predicate OkStatus(status: int) {
    200 <= status <= 299
  }

  const UnknownError: string := "Unknown error from Payomatix API."

  /** The JSON bodies the handler answers with, one per branch. */
  datatype Body =
    | Invalid(errors: seq<string>)
    | Created(redirectUrl: Value, transactionId: Value)
    | NoRedirect(processorResponse: Value)
    | Rejected(error: Value, processorErrors: Value)
    | ServerError(reason: string)
  {
    /** The body's `success` flag. */
    predicate Success() {
      Created?
    }

    /** The body's fixed `message` text. */
    function Message(): string {
      match this
      case Invalid(_) => "Invalid request data provided."
      case Created(_, _) => "Payment intent created successfully. Redirect URL received."
      case NoRedirect(_) =>
        "Payment intent created, but redirection URL was not provided by Payomatix. Please check Payomatix API response format."
      case Rejected(_, _) => "Failed to create payment intent with Payomatix."
      case ServerError(_) => "An internal server error occurred while processing your payment request."
    }
  }

  /** An HTTP status with its JSON body. */
  datatype Response = Response(status: int, body: Body)

  /** The processor accepted the request and named a usable redirect. */
  predicate Redirected(x: Exchange) {
    x.Answered? && OkStatus(x.status) && Truthy(Field(x.payload, "redirect_url"))
  }

  /** The caller's response to a 2xx answer. */
  function OnOk(payload: Value): (r: Response)
    ensures r.body.Success() <==> Truthy(Field(payload, "redirect_url"))
    ensures r.body.Success() ==>
              && r.status == 200
              && r.body.redirectUrl == Field(payload, "redirect_url")
              && r.body.transactionId == FirstTruthy([Field(payload, "merchant_ref"), Field(payload, "transaction_id")])
    ensures !r.body.Success() ==> r.status == 500
    ensures !Nullish(payload) && !Truthy(Field(payload, "redirect_url")) ==> r == Response(500, NoRedirect(payload))
    ensures Nullish(payload) ==>
              r == Response(500, ServerError(ReadError(if payload.Null? then "null" else "undefined", "redirect_url")))
  {
    match Get(payload, "redirect_url")
    case Failure(e) => Response(500, ServerError(e))
    case Success(url) =>
      if Truthy(url) then
        OrChainOfTwo(Field(payload, "merchant_ref"), Field(payload, "transaction_id"));
        Response(200, Created(url, Or(Field(payload, "merchant_ref"), Field(payload, "transaction_id"))))
      else Response(500, NoRedirect(payload))
  }

  /** The caller's response to an answer whose status is not 2xx. */
  function OnError(status: int, payload: Value): (r: Response)
    requires !OkStatus(status)
    ensures !r.body.Success() && !OkStatus(r.status)
    ensures !Nullish(payload) ==>
              && r.status == (if status != 0 then status else 500)
              && r.body == Rejected(
                   FirstTruthy([Field(payload, "response"), Field(payload, "message"),
                                Field(payload, "error"), Str(UnknownError)]),
                   Field(payload, "errors"))
    ensures r.body.Rejected? ==> Truthy(r.body.error)
    ensures Nullish(payload) ==>
              r == Response(500, ServerError(ReadError(if payload.Null? then "null" else "undefined", "response")))
  {
    match Get(payload, "response")
    case Failure(e) => Response(500, ServerError(e))
    case Success(response) =>
      var message := Field(payload, "message");
      var error := Field(payload, "error");
      OrChainOfFour(response, message, error, Str(UnknownError));
      var chosen := Or(Or(Or(response, message), error), Str(UnknownError));
      Response(if status != 0 then status else 500, Rejected(chosen, Field(payload, "errors")))
  }

  /** The caller's response for a request that passed validation. */
  function Interpret(x: Exchange): (r: Response)
    ensures r.body.Success() <==> Redirected(x)
    ensures OkStatus(r.status) <==> r.body.Success()
    ensures x.Answered? && OkStatus(x.status) ==> r == OnOk(x.payload)
    ensures x.Answered? && !OkStatus(x.status) ==> r == OnError(x.status, x.payload)
    ensures x.Threw? ==> r == Response(500, ServerError(x.message))
  {
    match x
    case Threw(message) => Response(500, ServerError(message))
    case Answered(status, payload) =>
      if OkStatus(status) then OnOk(payload) else OnError(status, payload)
  }

  /** A 200 answer naming a redirect and echoing the merchant reference. */
  lemma ExampleRedirect()
    ensures var payload := Obj([("redirect_url", Str("https://pay.example/x")), ("merchant_ref", Str("R1"))]);
      Interpret(Answered(200, payload)) == Response(200, Created(Str("https://pay.example/x"), Str("R1")))
  {
  }

  /** A 200 answer without a redirect is a server error, not a success. */
  lemma ExampleMissingRedirect()
    ensures var payload := Obj([("status", Str("redirect"))]);
      Interpret(Answered(200, payload)) == Response(500, NoRedirect(payload))
  {
  }

  /** A 400 answer passes its status and its `response` text through. */
  lemma ExampleRejection()
    ensures var payload := Obj([("status", Str("validation_error")), ("response", Str("bad currency"))]);
      Interpret(Answered(400, payload)) == Response(400, Rejected(Str("bad currency"), Undefined))
  {
  }
}
