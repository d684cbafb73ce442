# Payment-intent relay: a Dafny model of `/create-payment-intent`

This project models the decision logic of the `/create-payment-intent` route
of a small Express server. The route relays payment requests to the Payomatix
payment processor. The handler runs three pure stages in sequence, and each
one is a module here:

1. **Validation** (`Schema`). The body is checked against `paymentSchema`
   with `abortEarly: false`. Every violated rule of every key is reported,
   keys in the order the schema declares them. Within one key, a missing
   value, a value of the wrong type or an empty string reports only that
   base rule. Any other value is checked against every rule of the key.
   A rejected body gets HTTP 400 with one message per violation.
2. **Request construction** (`Outbound`). `customerName` is split at its
   first space into first and last name. The validated fields are copied
   into the processor body. The description defaults to
   `Payment for order <merchantRef>`.
3. **Reply interpretation** (`Reply`). The processor's status and parsed
   JSON body, or the exception the call threw, become the caller's status
   and body. A 2xx answer with a truthy `redirect_url` is a success. A 2xx
   answer without one is a 500. Any other status is passed through, or 500
   when it is 0, with the error text taken from `response || message ||
   error || 'Unknown error from Payomatix API.'`. An exception is a 500
   carrying its message.

`Handler.Handle` composes the stages. It returns the request it sent, if
any, together with the caller's response, so "nothing is sent for a
rejected body" is part of its result. `Json` models JavaScript values after
JSON parsing: truthiness, `||`, property reads that throw on `null`, and
last-duplicate-wins member lookup. `Text` models `split(' ')` and
`join(' ')`.

The network call is a parameter: `Reply.Exchange` is what posting the
request yields. The email and URI grammars of the validation library are
parameters too, as the two predicates of `Schema.Syntax`.

Success is decided by the HTTP status and `redirect_url` alone. No
`responseCode` or `status` field of the reply is consulted. `merchantRef` is
a required client field, not a generated correlation identifier.

## Model

| member | source | states |
|---|---|---|
| `Text.Split` | server.js:116 | `split(' ')` always yields at least one piece, and no piece contains a space |
| `Text.JoinSplit` | server.js:116-118 | joining the pieces of a split with the same separator gives back the original string |
| `Text.SplitAtFirst` | server.js:116-118 | the first piece is the text before the first separator; the other pieces joined back are exactly the text after it; without a separator there is a single piece |
| `Json.Or` | server.js:163 | JavaScript's `a or b` operator yields one of its operands; it is truthy iff either operand is; it is `a` when `a` is truthy |
| `Json.FirstTruthy` | server.js:179 | reference meaning of a chain of JavaScript `or` operators: the first truthy operand, or the last operand when none is truthy |
| `Json.OrExtendsChain` | server.js:179 | extending a left-nested chain of `or` operators by one operand keeps it equal to the first-truthy reference |
| `Json.OrChainOfFour` | server.js:179 | the four-operand error chain picks the first truthy of `response`, `message`, `error`, else the literal |
| `Json.OrChainOfTwo` | server.js:163 | `merchant_ref or transaction_id` picks `merchant_ref` when truthy, else `transaction_id` |
| `Json.Lookup` | server.js:158-163 | reading a member of a parsed object gives the value of the last member with that key, and `undefined` when there is none |
| `Json.Get` | server.js:158 | a property read throws exactly on `null`/`undefined` (with the TypeError text), and otherwise yields the member |
| `Schema.KeyViolationsExact` | server.js:37-79 | one key reports exactly the rules its value fails, each once |
| `Schema.NumberChecksExact` | server.js:38-43 | a present number is reported for exactly the rules it fails, `positive` and `precision(2)`, each at most once |
| `Schema.StringChecksExact` | server.js:44-77 | a present non-empty string is reported for exactly the rules it fails (length, max, uppercase, email, uri), each at most once |
| `Schema.CollectExact` | server.js:85 | validating a list of keys reports exactly the failing rules of those keys |
| `Schema.CollectDistinct` | server.js:85 | over distinct keys, no violation is reported twice |
| `Schema.KeysListEachKeyOnce` | server.js:37-79 | every schema key is validated, and none twice |
| `Schema.ViolationsExact` | server.js:85-91 | the reported details are exactly the violated rules of the whole body, with no duplicates |
| `Schema.NoViolationsIffAccepts` | server.js:37-79 | validation reports nothing iff all hold: a positive amount with at most 2 decimals; a 3-character upper-case currency; email and both URLs non-empty and in their syntax; `merchantRef` present, non-empty, at most 50 characters; `country`, if present, 2 upper-case characters; the other optional texts within their maximum lengths; `metadata` absent or an object |
| `Schema.CleanKeyAccepts` | server.js:37-79 | when no rule of any key fails, the body is acceptable |
| `Schema.AmountClean` | server.js:38-43 | an amount failing none of its rules is a positive number with at most two decimals |
| `Schema.CodeKeyClean` | server.js:44-49 | a currency or country failing none of its rules is a string of the declared length with no lower-case letter, and the currency is present |
| `Schema.TextKeyClean` | server.js:50-75 | a string key failing none of its rules is present when required, non-empty, within its maximum length and in its syntax |
| `Schema.FailingKeyRejects` | server.js:86 | a single failing rule makes the body unacceptable |
| `Schema.Validate` | server.js:85-111 | validation succeeds iff the body is acceptable; on success the typed payment carries exactly the body's values; on failure the error is the non-empty list of all violations |
| `Schema.Typed` | server.js:95-111 | the typed payment holds exactly the values of the accepted body |
| `Outbound.SplitName` | server.js:113-119 | no name gives two empty names; otherwise the first name is the text before the first space; with a space, the last name is everything after the first space and first + " " + last is the name; without one, the last name is empty |
| `Outbound.Cents` | server.js:124 | for an amount with at most two decimals, the cents value is exactly the amount times 100, and positive when the amount is |
| `Outbound.BuildRequest` | server.js:122-139 | email, currency, both URLs, merchant reference and optional fields are copied unchanged; the first name is the text before the first space of `customerName` and the last name everything after it (both empty without a name, the whole name and an empty last name without a space); the description is the supplied one or the default; the amount in cents is exactly the amount times 100 and positive |
| `Reply.OnOk` | server.js:155-172 | a 2xx answer succeeds iff its `redirect_url` is truthy, with that URL and `merchant_ref`, or else `transaction_id`, as the transaction id; otherwise 500 with the raw payload attached, or the TypeError when the payload is `null` |
| `Reply.OnError` | server.js:174-182 | a non-2xx answer never succeeds; its status is the processor's when non-zero, else 500; the error is the first truthy of `response`, `message`, `error`, else the literal, so it is always truthy; `errors` is passed through |
| `Reply.Interpret` | server.js:155-190 | the caller gets `success` iff the processor answered 2xx with a truthy `redirect_url`; the caller sees a 2xx status iff it gets `success`; an exception gives 500 with its message |
| `Reply.ExampleRedirect` | server.js:158-164 | a 200 answer with `redirect_url` and `merchant_ref: "R1"` yields that URL and transaction id `"R1"` |
| `Reply.ExampleMissingRedirect` | server.js:165-171 | a 200 answer without `redirect_url` yields 500 with the payload, not a success |
| `Reply.ExampleRejection` | server.js:174-181 | a 400 answer with `response: "bad currency"` yields status 400 with that error text |
| `Handler.ErrorMessages` | server.js:91 | one message per violation, in the same order |
| `Handler.Handle` | server.js:82-192 | a request is sent iff the body is acceptable; a rejected body gets 400 and no request; an accepted body gets the interpretation of the answer; the caller gets `success` iff the body is acceptable and the processor redirected; 2xx iff `success` |
| `Handler.RejectionListsEveryViolation` | server.js:85-93 | a rejected body gets 400, `success` false, nothing sent, and a non-empty error list whose messages are those of the violations in order; every failing rule's message is in it, and every listed violation is a failing rule |
| `Handler.RejectionIgnoresProcessor` | server.js:86-93 | the response to a rejected body does not depend on the processor's answer |
| `Handler.SentRequestCarriesInput` | server.js:95-139 | for an accepted body, the sent request carries the client's email, currency, URLs and merchant reference unchanged; the description is the client's or `"Payment for order " + merchantRef`; the amount in cents is the amount times 100; the first name is the client's name up to its first space and the last name the rest after that space; the country is the client's |

## Left out

- Express setup, `helmet`, `cors`, `bodyParser`, `dotenv`, `app.listen` and all `console` logging (server.js:1-34, 201-217): framework configuration and I/O.
- The `fetch` call, its headers (the `Authorization` secret key) and `.json()` parsing (server.js:141-153): a network call, modelled only by its outcome `Reply.Exchange` (status and parsed body, or an exception message).
- The `/payomatix-webhook` route (server.js:195-199): a stub that always answers 200, with nothing to decide.
- Joi's `email()` and `uri()` grammars: library internals, passed in as the opaque predicates of `Schema.Syntax`.
- Joi's default `convert` preference: the model treats `uppercase()` and `precision(2)` as the checks their custom messages describe. It does not model Joi forcing the case, rounding the amount, or converting numeric strings to numbers.
- Joi's rejection of keys the schema does not declare, and of a body that is not an object: the raw request is a record of the fifteen declared keys.
- Floating point: amounts are exact reals. Joi's checks for infinite and unsafe numbers are not modelled.
- `amount.toFixed(2)` is modelled as the integer number of cents. Its decimal string spelling is not modelled.
- `Outbound.BuildRequest`: the cents value is stated only for amounts with at most two decimals, which covers every validated amount. `toFixed`'s rounding of other amounts is not modelled.
- String lengths count Unicode scalar values, while JavaScript counts UTF-16 code units. Upper case means "no ASCII lower-case letter"; locale-aware case of other scripts is not modelled.
- Messages for rules without a custom text in the schema (for example an empty `merchantRef`, or an over-long `phone`) follow the validation library's default templates, with the quoted key as label.
- `Json.Get` gives the TypeError text in the wording of V8, the engine Node runs on; other engines word it differently.
- Node's refusal to send an HTTP status outside 100-999 is not modelled. The processor's status is passed through as an integer.
- The generated correlation identifier, `responseCode`/`status` classification and webhook forwarding are not in this route's code and are not part of this model.
