// One line of an invoice: a description, a positive quantity and a
// non-negative unit price.
module InvoiceLineItemEntity {
  import opened Core
  import opened Text
  import Guard

  /** The constructor checks, in order: the invoice Guid, the description, the quantity, the unit price. */
  function CheckNew(invoiceId: Guid, description: string, quantity: real, unitPrice: real): (r: Outcome<()>)
    ensures r.Returned? <==> invoiceId != EmptyGuid && !IsBlank(description) && quantity > 0.0 && unitPrice >= 0.0
    ensures invoiceId == EmptyGuid ==> r == Threw(ArgumentException("invoiceId", "Guid cannot be empty"))
    ensures invoiceId != EmptyGuid && IsBlank(description) ==> r == Threw(ArgumentException("description", "Value cannot be null or empty"))
    ensures invoiceId != EmptyGuid && !IsBlank(description) && quantity <= 0.0 ==> r == Threw(DomainException("Quantity must be positive"))
    ensures invoiceId != EmptyGuid && !IsBlank(description) && quantity > 0.0 && unitPrice < 0.0 ==>
              r == Threw(ArgumentException("unitPrice", "Value cannot be negative"))
  {
    var _ :- Guard.AgainstInvalidGuid(invoiceId, "invoiceId");
    var _ :- Guard.AgainstNullOrEmpty(Some(description), "description");
    var _ :- Guard.Against(quantity <= 0.0, "Quantity must be positive");
    Guard.AgainstNegative(unitPrice, "unitPrice")
  }

  class InvoiceLineItem {
    const id: Guid
    const invoiceId: Guid
    var description: string
    var quantity: real
    var unitPrice: real

    predicate Valid()
      reads this
    {
      quantity > 0.0 && unitPrice >= 0.0 && !IsBlank(description)
    }

    constructor (id: Guid, invoiceId: Guid, description: string, quantity: real, unitPrice: real)
      requires CheckNew(invoiceId, description, quantity, unitPrice).Returned?
      ensures Valid()
      ensures this.id == id && this.invoiceId == invoiceId && this.description == description
      ensures this.quantity == quantity && this.unitPrice == unitPrice
    {
      this.id := id;
      this.invoiceId := invoiceId;
      this.description := description;
      this.quantity := quantity;
      this.unitPrice := unitPrice;
    }

    /** `new InvoiceLineItem(invoiceId, description, quantity, unitPrice)`. */
    static method Create(id: Guid, invoiceId: Guid, description: string, quantity: real, unitPrice: real)
      returns (r: Outcome<InvoiceLineItem>)
      ensures r.Threw? <==> CheckNew(invoiceId, description, quantity, unitPrice).Threw?
      ensures r.Threw? ==> r.error == CheckNew(invoiceId, description, quantity, unitPrice).error
      ensures r.Returned? ==> fresh(r.value) && r.value.Valid()
      ensures r.Returned? ==> r.value.id == id && r.value.invoiceId == invoiceId && r.value.description == description
                              && r.value.quantity == quantity && r.value.unitPrice == unitPrice
    {
      var _ :- CheckNew(invoiceId, description, quantity, unitPrice);
      var li := new InvoiceLineItem(id, invoiceId, description, quantity, unitPrice);
      return Returned(li);
    }

    /** `Amount`: quantity times unit price, never negative for a valid line. */
    function Amount(): (r: real)
      reads this
      ensures quantity > 0.0 && unitPrice >= 0.0 ==> r >= 0.0
    {
      NonNegativeProduct(quantity, unitPrice);
      quantity * unitPrice
    }

    method UpdateQuantity(newQuantity: real) returns (r: Outcome<()>)
      modifies this
      ensures r.Returned? <==> newQuantity > 0.0
      ensures r.Threw? ==> r.error == DomainException("Quantity must be positive") && quantity == old(quantity)
      ensures r.Returned? ==> quantity == newQuantity
      ensures unitPrice == old(unitPrice) && description == old(description)
      ensures old(Valid()) ==> Valid()
    {
      var _ :- Guard.Against(newQuantity <= 0.0, "Quantity must be positive");
      quantity := newQuantity;
      return Done;
    }

    method UpdateUnitPrice(newUnitPrice: real) returns (r: Outcome<()>)
      modifies this
      ensures r.Returned? <==> newUnitPrice >= 0.0
      ensures r.Threw? ==> r.error == ArgumentException("newUnitPrice", "Value cannot be negative") && unitPrice == old(unitPrice)
      ensures r.Returned? ==> unitPrice == newUnitPrice
      ensures quantity == old(quantity) && description == old(description)
      ensures old(Valid()) ==> Valid()
    {
      var _ :- Guard.AgainstNegative(newUnitPrice, "newUnitPrice");
      unitPrice := newUnitPrice;
      return Done;
    }

    method UpdateDescription(newDescription: string) returns (r: Outcome<()>)
      modifies this
      ensures r.Returned? <==> !IsBlank(newDescription)
      ensures r.Threw? ==> r.error == ArgumentException("newDescription", "Value cannot be null or empty") && description == old(description)
      ensures r.Returned? ==> description == newDescription
      ensures quantity == old(quantity) && unitPrice == old(unitPrice)
      ensures old(Valid()) ==> Valid()
    {
      var _ :- Guard.AgainstNullOrEmpty(Some(newDescription), "newDescription");
      description := newDescription;
      return Done;
    }
  }

  lemma NonNegativeProduct(a: real, b: real)
    ensures a > 0.0 && b >= 0.0 ==> a * b >= 0.0
  {
  }
}
