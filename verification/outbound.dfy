/** The body of the transaction request sent to the processor, built from a
    validated payment. */
module Outbound {
  import opened Base
  import opened Json
  import opened Text
  import opened Schema

  /** The JSON body posted to the processor; an `Option` field that is `None`
      is left out of the serialized body. */
  datatype ProcessorRequest = ProcessorRequest(
    email: string, amountCents: int, currency: string, returnUrl: string, notifyUrl: string,
    firstName: string, lastName: string,
    address: Option<string>, city: Option<string>, state: Option<string>, zip: Option<string>,
    country: Option<string>, phone: Option<string>,
    description: string, merchantRef: string, metadata: Option<Value>)

  /** First and last name from `customerName`: the text before the first
      space, and everything after it. */
  function SplitName(name: Option<string>): (names: (string, string))
    ensures name.None? ==> names == ("", "")
    ensures name.Some? ==> names.0 == name.value[..IndexOf(name.value, ' ')]
    ensures name.Some? && ' ' in name.value ==> names.0 + " " + names.1 == name.value
    ensures name.Some? && ' ' in name.value ==> names.1 == name.value[IndexOf(name.value, ' ') + 1..]
    ensures name.Some? && ' ' !in name.value ==> names == (name.value, "")
    ensures ' ' !in names.0
  {
    match name
    case None => ("", "")
    case Some(n) =>
      if n == "" then ("", "")
      else
        var parts := Split(n, ' ');
        SplitAtFirst(n, ' ');
        var i := IndexOf(n, ' ');
        assert i < |n| ==> n == n[..i] + " " + n[i + 1..];
        assert i == |n| ==> parts[0] == n && parts[1..] == [];
        (parts[0], Join(parts[1..], ' '))
  }

  /** The description sent when the client gave none. */
  function DefaultDescription(merchantRef: string): string {
    "Payment for order " + (if merchantRef != "" then merchantRef else "N/A")
  }

  /** The amount in minor units, which is what two fixed decimals of the amount spell. */
  function Cents(amount: real): (cents: int)
    ensures HasPrecision(amount, 2) ==> cents as real == amount * 100.0
    ensures HasPrecision(amount, 2) && amount > 0.0 ==> cents > 0
  {
    assert HasPrecision(amount, 2) <==> (amount * 100.0).Floor as real == amount * 100.0 by {
      assert amount * 10.0 * 10.0 == amount * 100.0;
    }
    (amount * 100.0).Floor
  }

  /** The processor request for a validated payment. */
  function BuildRequest(p: Payment): (q: ProcessorRequest)
    ensures q.email == p.customerEmail && q.currency == p.currency
    ensures q.returnUrl == p.returnUrl && q.notifyUrl == p.notifyUrl
    ensures q.merchantRef == p.merchantRef
    ensures q.address == p.address && q.city == p.city && q.state == p.state && q.zip == p.zip
    ensures q.country == p.country && q.phone == p.phone && q.metadata == p.metadata
    ensures p.customerName.None? ==> q.firstName == "" && q.lastName == ""
    ensures (q.firstName, q.lastName) == SplitName(p.customerName)
    ensures p.customerName.Some? ==>
              q.firstName == p.customerName.value[..IndexOf(p.customerName.value, ' ')]
    ensures p.customerName.Some? && ' ' in p.customerName.value ==>
              q.lastName == p.customerName.value[IndexOf(p.customerName.value, ' ') + 1..]
    ensures p.customerName.Some? && ' ' in p.customerName.value ==>
              q.firstName + " " + q.lastName == p.customerName.value
    ensures p.customerName.Some? && ' ' !in p.customerName.value ==>
              q.firstName == p.customerName.value && q.lastName == ""
    ensures p.description.Some? && p.description.value != "" ==> q.description == p.description.value
    ensures (p.description.None? || p.description.value == "") ==> q.description == DefaultDescription(p.merchantRef)
    ensures p.description.None? && p.merchantRef != "" ==> q.description == "Payment for order " + p.merchantRef
    ensures HasPrecision(p.amount, 2) ==> q.amountCents as real == p.amount * 100.0
    ensures p.amount > 0.0 && HasPrecision(p.amount, 2) ==> q.amountCents > 0
  {
    var cents := Cents(p.amount);
    var (first, last) := SplitName(p.customerName);
    var description :=
      if p.description.Some? && p.description.value != "" then p.description.value
      else DefaultDescription(p.merchantRef);
    ProcessorRequest(
      p.customerEmail, cents, p.currency, p.returnUrl, p.notifyUrl,
      first, last, p.address, p.city, p.state, p.zip, p.country, p.phone,
      description, p.merchantRef, p.metadata)
  }
}
