// A non-negative amount of money in one currency.  `decimal` is modelled as
// `real`; the currency code is stored upper-cased.
module MoneyValue {
  import opened Core
  import opened Text
  import Guard

  datatype Money = Money(amount: real, currency: string)
  {
    /** What every constructed `Money` satisfies. */
    predicate Valid()
    {
      amount >= 0.0 && !IsBlank(currency) && ToUpper(currency) == currency
    }

    /** `Add`: same currency required; the amounts are summed. */
    function Add(other: Money): (r: Outcome<Money>)
      ensures currency != other.currency ==> r == Threw(DomainException("Cannot add different currencies"))
      ensures Valid() && other.Valid() && currency == other.currency ==>
                r == Returned(Money(amount + other.amount, currency)) && r.value.Valid()
    {
      var _ :- Guard.Against(currency != other.currency, "Cannot add different currencies");
      Create(amount + other.amount, currency)
    }

    /** `Subtract`: same currency and enough money required; the result is never negative. */
    function Subtract(other: Money): (r: Outcome<Money>)
      ensures currency != other.currency ==> r == Threw(DomainException("Cannot subtract different currencies"))
      ensures currency == other.currency && amount < other.amount ==> r == Threw(DomainException("Insufficient amount"))
      ensures Valid() && currency == other.currency && amount >= other.amount ==>
                r == Returned(Money(amount - other.amount, currency)) && r.value.amount >= 0.0
    {
      var _ :- Guard.Against(currency != other.currency, "Cannot subtract different currencies");
      var _ :- Guard.Against(amount < other.amount, "Insufficient amount");
      Create(amount - other.amount, currency)
    }

    /** `Multiply`: rejects a negative factor, otherwise scales the amount and keeps the currency. */
    function Multiply(factor: real): (r: Outcome<Money>)
      ensures factor < 0.0 ==> r == Threw(ArgumentException("factor", "Value cannot be negative"))
      ensures Valid() && factor >= 0.0 ==> r == Returned(Money(amount * factor, currency)) && r.value.Valid()
    {
      var _ :- Guard.AgainstNegative(factor, "factor");
      Create(amount * factor, currency)
    }
  }

  /** `new Money(amount, currency)`: amount checked first, then the currency; the currency is upper-cased. */
  function Create(amount: real, currency: string): (r: Outcome<Money>)
    ensures amount < 0.0 ==> r == Threw(ArgumentException("amount", "Value cannot be negative"))
    ensures amount >= 0.0 && IsBlank(currency) ==> r == Threw(ArgumentException("currency", "Value cannot be null or empty"))
    ensures r.Returned? <==> amount >= 0.0 && !IsBlank(currency)
    ensures r.Returned? ==> r.value.amount == amount && r.value.currency == ToUpper(currency) && r.value.Valid()
  {
    var _ :- Guard.AgainstNegative(amount, "amount");
    var _ :- Guard.AgainstNullOrEmpty(Some(currency), "currency");
    ToUpperKeepsNonBlank(currency);
    ToUpperIdempotent(currency);
    Returned(Money(amount, ToUpper(currency)))
  }

  /** `Money.Zero(currency)`. */
  function Zero(currency: string): (r: Outcome<Money>)
    ensures r.Returned? <==> !IsBlank(currency)
    ensures r.Returned? ==> r.value.amount == 0.0 && r.value.currency == ToUpper(currency)
  {
    Create(0.0, currency)
  }

  /** The default currency of `Money`. */
  const USD: string := "USD"

  /** `Money.Zero()` in the default currency. */
  lemma ZeroUsd()
    ensures Zero(USD) == Returned(Money(0.0, USD))
  {
    assert !IsWhiteSpace(USD[0]);
    assert ToUpper(USD) == USD;
  }

  /** Adding `b` and then subtracting `b` gives back `a`. */
  lemma AddThenSubtract(a: Money, b: Money)
    requires a.Valid() && b.Valid() && a.currency == b.currency
    ensures a.Add(b).Returned?
    ensures a.Add(b).value.Subtract(b) == Returned(a)
  {
  }

  /** Zero in `c` is a two-sided identity for addition of money in `c`. */
  lemma ZeroIsIdentity(a: Money, c: string)
    requires a.Valid() && !IsBlank(c) && a.currency == ToUpper(c)
    ensures Zero(c).Returned?
    ensures a.Add(Zero(c).value) == Returned(a)
    ensures Zero(c).value.Add(a) == Returned(a)
  {
    var z := Zero(c).value;
    assert z.Valid();
  }

  /** Equality of `Money` compares exactly the amount and the currency. */
  lemma EqualityIsAmountAndCurrency(a: Money, b: Money)
    ensures a == b <==> a.amount == b.amount && a.currency == b.currency
  {
  }
}
