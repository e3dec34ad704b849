/** The card schema (backend/models/Card.js): `name` and `category` are
    required strings, `price` is a required number. Saving a document casts
    each submitted value to its declared type and then runs the `required`
    validators; every failing path is reported. */
module CardModel {
  import opened Common

  /** A stored card's fields (the store adds the id). */
  datatype Card = Card(name: string, category: string, price: real)

  /** A submitted price: missing, a JSON number, or a JSON string. */
  datatype PriceInput = NoPrice | Number(value: real) | Text(text: string)

  /** A request body `{ name, category, price }`; a missing name or category
      is None. */
  datatype CardInput = CardInput(name: Option<string>, category: Option<string>, price: PriceInput)

  datatype Field = Name | Category | Price

  /** Why a path failed: its `required` validator, or casting to Number. */
  datatype FieldError = Required | NotANumber

  datatype Validation =
    | Accepted(card: Card)
    | Rejected(errors: map<Field, FieldError>)

  /** The outcome of casting a submitted price to Number: no value (missing,
      or the empty string, which the cast turns into `null`), a number, or a
      cast error. */
  datatype PriceCast = Absent | Cast(value: real) | Uncastable

  predicate IsDigit(c: char) {
    '0' <= c <= '9'
  }

  predicate IsNumeral(s: string) {
    |s| > 0 && forall i :: 0 <= i < |s| ==> IsDigit(s[i])
  }

  function DigitValue(c: char): nat
    requires IsDigit(c)
  {
    c as int - '0' as int
  }

  /** The decimal value of a string of digits. */
  function NumeralValue(s: string): nat
    requires forall i :: 0 <= i < |s| ==> IsDigit(s[i])
  {
    if |s| == 0 then 0
    else 10 * NumeralValue(s[..|s| - 1]) + DigitValue(s[|s| - 1])
  }

  /** Mongoose's cast of a submitted price to Number: a number is kept, a
      string of digits is read as its decimal value, the empty string becomes
      no value, and any other string is a cast error. */
  function CastPrice(p: PriceInput): (r: PriceCast)
    ensures r == Absent <==> p.NoPrice? || p == Text("")
    ensures r == Uncastable <==> p.Text? && p.text != "" && !IsNumeral(p.text)
    ensures p.Number? ==> r == Cast(p.value)
    ensures p.Text? && IsNumeral(p.text) ==> r == Cast(NumeralValue(p.text) as real)
  {
    match p
    case NoPrice => Absent
    case Number(v) => Cast(v)
    case Text(s) =>
      if s == "" then Absent
      else if IsNumeral(s) then Cast(NumeralValue(s) as real)
      else Uncastable
  }

  function PriceError(p: PriceInput): Option<FieldError> {
    match CastPrice(p)
    case Absent => Some(Required)
    case Uncastable => Some(NotANumber)
    case Cast(_) => None
  }

  /** `new Card({ name, category, price })` followed by the validation that
      `save()` runs: accepted exactly when both strings are non-empty and the
      price casts to a number, and then the card holds the submitted values;
      otherwise each failing path is reported with its reason. */
  function Validate(input: CardInput): (r: Validation)
    ensures r.Accepted? <==> Truthy(input.name) && Truthy(input.category) && CastPrice(input.price).Cast?
    ensures r.Accepted? ==>
              r.card == Card(input.name.value, input.category.value, CastPrice(input.price).value)
    ensures r.Rejected? ==>
              && (Name in r.errors <==> !Truthy(input.name))
              && (Category in r.errors <==> !Truthy(input.category))
              && (Price in r.errors <==> !CastPrice(input.price).Cast?)
              && (forall f :: f in r.errors && f != Price ==> r.errors[f] == Required)
              && (Price in r.errors ==>
                    (r.errors[Price] == NotANumber <==> CastPrice(input.price) == Uncastable))
  {
    var errors :=
      (if Truthy(input.name) then map[] else map[Name := Required]) +
      (if Truthy(input.category) then map[] else map[Category := Required]) +
      (match PriceError(input.price) case None => map[] case Some(e) => map[Price := e]);
    if Truthy(input.name) && Truthy(input.category) && PriceError(input.price).None? then
      Accepted(Card(input.name.value, input.category.value, CastPrice(input.price).value))
    else
      Rejected(errors)
  }

  /** A card without a price is refused, and the price path says so. */
  lemma MissingPriceRejected(name: Option<string>, category: Option<string>)
    ensures Validate(CardInput(name, category, NoPrice)).Rejected?
    ensures Validate(CardInput(name, category, NoPrice)).errors[Price] == Required
  {
  }

  /** A non-numeric price is refused with a cast error on the price path. */
  lemma NonNumericPriceRejected(name: Option<string>, category: Option<string>)
    ensures Validate(CardInput(name, category, Text("pas un nombre"))).Rejected?
    ensures Validate(CardInput(name, category, Text("pas un nombre"))).errors[Price] == NotANumber
  {
  }

  /** A string of digits is read as its decimal value: "150" is the price 150. */
  lemma NumericTextAccepted(name: string, category: string)
    requires name != "" && category != ""
    ensures Validate(CardInput(Some(name), Some(category), Text("150"))) == Accepted(Card(name, category, 150.0))
  {
    assert IsNumeral("150");
    assert NumeralValue("1") == 1;
    assert NumeralValue("15") == 15 by { assert "15"[..1] == "1"; }
    assert NumeralValue("150") == 150 by { assert "150"[..2] == "15"; }
  }
}
