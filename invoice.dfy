// An invoice of a project to its client, in USD.  Lines and the tax rate
// can change only while it is a Draft; a Draft with at least one line can
// be sent, a Sent invoice paid, and anything but a Paid invoice cancelled.
module InvoiceEntity {
  import opened Core
  import opened Text
  import opened Calendar
  import opened Enums
  import opened MoneyValue
  import opened Abstractions
  import opened DomainEvents
  import opened InvoiceLineItemEntity
  import Guard
  import Arith

  const NonDraftMessage: string := "Cannot modify non-draft invoice"

  /** The checks of the constructor after the tenant check. */
  function CheckNewInvoice(invoiceNumber: string, projectId: Guid, clientId: Guid, dueDate: Instant, today: Day): (r: Outcome<()>)
    ensures r.Returned? <==> !IsBlank(invoiceNumber) && projectId != EmptyGuid && clientId != EmptyGuid && DateOf(dueDate) > today
    ensures IsBlank(invoiceNumber) ==> r == Threw(ArgumentException("invoiceNumber", "Value cannot be null or empty"))
    ensures !IsBlank(invoiceNumber) && projectId == EmptyGuid ==> r == Threw(ArgumentException("projectId", "Guid cannot be empty"))
    ensures !IsBlank(invoiceNumber) && projectId != EmptyGuid && clientId == EmptyGuid ==>
              r == Threw(ArgumentException("clientId", "Guid cannot be empty"))
    ensures !IsBlank(invoiceNumber) && projectId != EmptyGuid && clientId != EmptyGuid && DateOf(dueDate) <= today ==>
              r == Threw(DomainException("Due date must be in the future"))
  {
    var _ :- Guard.AgainstNullOrEmpty(Some(invoiceNumber), "invoiceNumber");
    var _ :- Guard.AgainstInvalidGuid(projectId, "projectId");
    var _ :- Guard.AgainstInvalidGuid(clientId, "clientId");
    Guard.Against(DateOf(dueDate) <= today, "Due date must be in the future")
  }

  /** `_lineItems.Sum(item => item.Amount)`. */
  function SumAmounts(items: seq<InvoiceLineItem>): (s: real)
    reads items
    ensures (forall i :: 0 <= i < |items| ==> items[i].quantity > 0.0 && items[i].unitPrice >= 0.0) ==> s >= 0.0
  {
    if items == [] then 0.0 else items[0].Amount() + SumAmounts(items[1..])
  }

  /** The index of the first line with the given id. */
  function IndexOfLine(items: seq<InvoiceLineItem>, lineItemId: Guid): (r: Option<nat>)
    ensures r.Some? ==> r.value < |items| && items[r.value].id == lineItemId
    ensures r.Some? ==> forall k :: 0 <= k < r.value ==> items[k].id != lineItemId
    ensures r.None? ==> forall k :: 0 <= k < |items| ==> items[k].id != lineItemId
  {
    if items == [] then None
    else if items[0].id == lineItemId then Some(0)
    else
      var rest := IndexOfLine(items[1..], lineItemId);
      if rest.Some? then Some(rest.value + 1) else None
  }

  /** The fields an invoice operation may change. */
  datatype InvoiceState = InvoiceState(
    status: InvoiceStatus, taxRate: real, paymentDate: Option<Day>, paymentMethod: Option<string>,
    notes: Option<string>, lineItems: seq<InvoiceLineItem>)

  class Invoice {
    const base: BaseEntity<DomainEvent>
    const invoiceNumber: string
    const projectId: Guid
    const clientId: Guid
    const invoiceDate: Day
    const dueDate: Day
    const currency: string
    var status: InvoiceStatus
    var taxRate: real
    var paymentDate: Option<Day>
    var paymentMethod: Option<string>
    var notes: Option<string>
    var lineItems: seq<InvoiceLineItem>

    /**
     * The invariant of the lifecycle: valid lines of this invoice, a tax rate
     * in [0,100], a payment date (never before the invoice date) exactly
     * when Paid, lines whenever Sent or Paid, and never the Overdue status.
     */
    predicate Valid()
      reads this, lineItems
    {
      (forall li :: li in lineItems ==> li.Valid() && li.invoiceId == base.id)
      && 0.0 <= taxRate <= 100.0
      && (status == Paid <==> paymentDate.Some?)
      && (paymentDate.Some? ==> paymentDate.value >= invoiceDate)
      && (status == Sent || status == Paid ==> lineItems != [])
      && status != Overdue
      && currency == USD
    }

    function State(): InvoiceState
      reads this
    {
      InvoiceState(status, taxRate, paymentDate, paymentMethod, notes, lineItems)
    }

    constructor (base: BaseEntity<DomainEvent>, invoiceNumber: string, projectId: Guid, clientId: Guid, dueDate: Instant, today: Day)
      ensures this.base == base && this.invoiceNumber == invoiceNumber && this.projectId == projectId && this.clientId == clientId
      ensures invoiceDate == today && this.dueDate == DateOf(dueDate) && currency == USD
      ensures State() == InvoiceState(Draft, 0.0, None, None, None, [])
      ensures Valid()
    {
      this.base := base;
      this.invoiceNumber := invoiceNumber;
      this.projectId := projectId;
      this.clientId := clientId;
      this.dueDate := DateOf(dueDate);
      this.invoiceDate := today;
      this.currency := USD;
      this.status := Draft;
      this.taxRate := 0.0;
      this.paymentDate := None;
      this.paymentMethod := None;
      this.notes := None;
      this.lineItems := [];
    }

    /** `new Invoice(tenantId, invoiceNumber, projectId, clientId, dueDate)`: a Draft in USD, tax 0, due after today. */
    static method Create(tenantId: string, id: Guid, now: Instant, today: Day, invoiceNumber: string,
                         projectId: Guid, clientId: Guid, dueDate: Instant)
      returns (r: Outcome<Invoice>)
      ensures CheckTenant(tenantId).Threw? ==> r == Threw(CheckTenant(tenantId).error)
      ensures CheckTenant(tenantId).Returned? ==> (r.Threw? <==> CheckNewInvoice(invoiceNumber, projectId, clientId, dueDate, today).Threw?)
      ensures CheckTenant(tenantId).Returned? && r.Threw? ==> r.error == CheckNewInvoice(invoiceNumber, projectId, clientId, dueDate, today).error
      ensures r.Returned? ==> fresh(r.value) && fresh(r.value.base) && r.value.Valid()
      ensures r.Returned? ==> r.value.base.id == id && r.value.invoiceNumber == invoiceNumber
                              && r.value.projectId == projectId && r.value.clientId == clientId
      ensures r.Returned? ==> r.value.invoiceDate == today && r.value.dueDate == DateOf(dueDate) && r.value.dueDate > today
      ensures r.Returned? ==> r.value.currency == USD && r.value.State() == InvoiceState(Draft, 0.0, None, None, None, [])
    {
      var b :- BaseEntity<DomainEvent>.Create(tenantId, id, now);
      var _ :- CheckNewInvoice(invoiceNumber, projectId, clientId, dueDate, today);
      var inv := new Invoice(b, invoiceNumber, projectId, clientId, dueDate, today);
      return Returned(inv);
    }

    /** `SubTotal`: the summed line amounts as money in the invoice currency. */
    function SubTotal(): (r: Outcome<Money>)
      reads this, lineItems
      ensures r.Returned? ==> r.value.amount == SumAmounts(lineItems)
      ensures currency == USD && SumAmounts(lineItems) >= 0.0 ==> r == Returned(Money(SumAmounts(lineItems), USD))
    {
      assert ToUpper(USD) == USD;
      assert !IsWhiteSpace(USD[0]);
      MoneyValue.Create(SumAmounts(lineItems), currency)
    }

    /** `TaxAmount`: the subtotal times the tax rate in percent. */
    function TaxAmount(): (r: Outcome<Money>)
      reads this, lineItems
      ensures SubTotal().Threw? ==> r.Threw?
      ensures r.Returned? ==> r.value.amount == SumAmounts(lineItems) * taxRate / 100.0
      ensures currency == USD && SumAmounts(lineItems) >= 0.0 && taxRate >= 0.0 ==> r.Returned? && r.value.currency == USD
    {
      var sub :- SubTotal();
      var t := sub.amount * taxRate / 100.0;
      UsdMoneyIsValid(t);
      MoneyValue.Create(t, currency)
    }

    /** `TotalAmount`: the subtotal plus the tax. */
    function TotalAmount(): (r: Outcome<Money>)
      reads this, lineItems
      ensures r.Returned? ==> r.value.amount == SumAmounts(lineItems) + SumAmounts(lineItems) * taxRate / 100.0
    {
      var sub :- SubTotal();
      var tax :- TaxAmount();
      sub.Add(tax)
    }

    /** `IsOverdue`: Sent and past the due date. */
    predicate IsOverdue(today: Day)
      reads this
    {
      status == Sent && today > dueDate
    }

    /** Appends a line while the invoice is a Draft; the line's own constructor then checks this invoice's id. */
    method AddLineItem(description: string, quantity: real, unitPrice: real, newId: Guid, now: Instant) returns (r: Outcome<()>)
      requires Valid()
      modifies this, base
      ensures Valid() && base.domainEvents == old(base.domainEvents)
      ensures old(status) != Draft ==> r == Threw(DomainException(NonDraftMessage))
      ensures old(status) == Draft && IsBlank(description) ==> r == Threw(ArgumentException("description", "Value cannot be null or empty"))
      ensures old(status) == Draft && !IsBlank(description) && quantity <= 0.0 ==> r == Threw(DomainException("Quantity must be positive"))
      ensures old(status) == Draft && !IsBlank(description) && quantity > 0.0 && unitPrice < 0.0 ==>
                r == Threw(ArgumentException("unitPrice", "Value cannot be negative"))
      ensures r.Returned? <==> old(status) == Draft && CheckNew(base.id, description, quantity, unitPrice).Returned?
      ensures r.Threw? ==> State() == old(State()) && base.updatedAt == old(base.updatedAt)
      ensures r.Returned? ==>
                |lineItems| == |old(lineItems)| + 1 && lineItems[..|old(lineItems)|] == old(lineItems)
                && State() == old(State()).(lineItems := lineItems)
                && fresh(lineItems[|old(lineItems)|])
                && lineItems[|old(lineItems)|].id == newId
                && lineItems[|old(lineItems)|].description == description
                && lineItems[|old(lineItems)|].quantity == quantity
                && lineItems[|old(lineItems)|].unitPrice == unitPrice
                && base.updatedAt == now
    {
      var _ :- Guard.Against(status != Draft, NonDraftMessage);
      var _ :- Guard.AgainstNullOrEmpty(Some(description), "description");
      var _ :- Guard.Against(quantity <= 0.0, "Quantity must be positive");
      var _ :- Guard.AgainstNegative(unitPrice, "unitPrice");
      var li :- InvoiceLineItem.Create(newId, base.id, description, quantity, unitPrice);
      lineItems := lineItems + [li];
      base.UpdateTimestamp(now);
      return Done;
    }

    /** Removes the first line with the given id while the invoice is a Draft; an unknown id changes nothing. */
    method RemoveLineItem(lineItemId: Guid, now: Instant) returns (r: Outcome<()>)
      requires Valid()
      modifies this, base
      ensures Valid() && base.domainEvents == old(base.domainEvents)
      ensures r.Returned? <==> old(status) == Draft
      ensures r.Threw? ==> r.error == DomainException(NonDraftMessage)
      ensures r.Threw? || IndexOfLine(old(lineItems), lineItemId).None? ==>
                State() == old(State()) && base.updatedAt == old(base.updatedAt)
      ensures r.Returned? && IndexOfLine(old(lineItems), lineItemId).Some? ==>
                var i := IndexOfLine(old(lineItems), lineItemId).value;
                State() == old(State()).(lineItems := old(lineItems)[..i] + old(lineItems)[i + 1..]) && base.updatedAt == now
    {
      var _ :- Guard.Against(status != Draft, NonDraftMessage);
      var i := IndexOfLine(lineItems, lineItemId);
      if i.Some? {
        var k := i.value;
        ghost var before := lineItems;
        lineItems := lineItems[..k] + lineItems[k + 1..];
        assert forall li :: li in lineItems ==> li in before;
        base.UpdateTimestamp(now);
      }
      return Done;
    }

    method Send(now: Instant) returns (r: Outcome<()>)
      requires Valid()
      modifies this, base
      ensures Valid() && base.domainEvents == old(base.domainEvents)
      ensures old(status) != Draft ==> r == Threw(DomainException("Only draft invoices can be sent"))
      ensures old(status) == Draft && old(lineItems) == [] ==> r == Threw(DomainException("Cannot send invoice without line items"))
      ensures r.Returned? <==> old(status) == Draft && old(lineItems) != []
      ensures r.Threw? ==> State() == old(State()) && base.updatedAt == old(base.updatedAt)
      ensures r.Returned? ==> State() == old(State()).(status := Sent) && base.updatedAt == now
    {
      var _ :- Guard.Against(status != Draft, "Only draft invoices can be sent");
      var _ :- Guard.Against(lineItems == [], "Cannot send invoice without line items");
      status := Sent;
      base.UpdateTimestamp(now);
      return Done;
    }

    method MarkAsPaid(paymentDate: Instant, paymentMethod: Option<string>, now: Instant) returns (r: Outcome<()>)
      requires Valid()
      modifies this, base
      ensures Valid() && base.domainEvents == old(base.domainEvents)
      ensures old(status) != Sent ==> r == Threw(DomainException("Only sent invoices can be marked as paid"))
      ensures old(status) == Sent && DateOf(paymentDate) < invoiceDate ==>
                r == Threw(DomainException("Payment date cannot be before invoice date"))
      ensures r.Returned? <==> old(status) == Sent && DateOf(paymentDate) >= invoiceDate
      ensures r.Threw? ==> State() == old(State()) && base.updatedAt == old(base.updatedAt)
      ensures r.Returned? ==> State() == old(State()).(status := Paid, paymentDate := Some(DateOf(paymentDate)),
                                                       paymentMethod := paymentMethod)
      ensures r.Returned? ==> base.updatedAt == now
    {
      var _ :- Guard.Against(status != Sent, "Only sent invoices can be marked as paid");
      var _ :- Guard.Against(DateOf(paymentDate) < invoiceDate, "Payment date cannot be before invoice date");
      status := Paid;
      this.paymentDate := Some(DateOf(paymentDate));
      this.paymentMethod := paymentMethod;
      base.UpdateTimestamp(now);
      return Done;
    }

    /** Cancels from every status but Paid, a Cancelled invoice included. */
    method Cancel(now: Instant) returns (r: Outcome<()>)
      requires Valid()
      modifies this, base
      ensures Valid() && base.domainEvents == old(base.domainEvents)
      ensures r.Returned? <==> old(status) != Paid
      ensures r.Threw? ==> r.error == DomainException("Cannot cancel paid invoice")
      ensures r.Threw? ==> State() == old(State()) && base.updatedAt == old(base.updatedAt)
      ensures r.Returned? ==> State() == old(State()).(status := InvoiceStatus.Cancelled) && base.updatedAt == now
    {
      var _ :- Guard.Against(status == Paid, "Cannot cancel paid invoice");
      status := InvoiceStatus.Cancelled;
      base.UpdateTimestamp(now);
      return Done;
    }

    /** Notes can change in every status. */
    method UpdateNotes(notes: Option<string>, now: Instant)
      requires Valid()
      modifies this, base
      ensures Valid() && base.domainEvents == old(base.domainEvents)
      ensures State() == old(State()).(notes := notes) && base.updatedAt == now
    {
      this.notes := notes;
      base.UpdateTimestamp(now);
    }

    method UpdateTaxRate(taxRate: real, now: Instant) returns (r: Outcome<()>)
      requires Valid()
      modifies this, base
      ensures Valid() && base.domainEvents == old(base.domainEvents)
      ensures old(status) != Draft ==> r == Threw(DomainException(NonDraftMessage))
      ensures old(status) == Draft && !(0.0 <= taxRate <= 100.0) ==> r == Threw(DomainException("Tax rate must be between 0 and 100"))
      ensures r.Returned? <==> old(status) == Draft && 0.0 <= taxRate <= 100.0
      ensures r.Threw? ==> State() == old(State()) && base.updatedAt == old(base.updatedAt)
      ensures r.Returned? ==> State() == old(State()).(taxRate := taxRate) && base.updatedAt == now
    {
      var _ :- Guard.Against(status != Draft, NonDraftMessage);
      var _ :- Guard.Against(taxRate < 0.0 || taxRate > 100.0, "Tax rate must be between 0 and 100");
      this.taxRate := taxRate;
      base.UpdateTimestamp(now);
      return Done;
    }
  }

  /**
   * For a valid invoice every total can be built: the subtotal is the sum
   * of the line amounts, the tax its share at the tax rate, and the total
   * their sum, which lies between the subtotal and twice the subtotal.
   */
  lemma TotalsOfValidInvoice(inv: Invoice)
    requires inv.Valid()
    ensures inv.SubTotal() == Returned(Money(SumAmounts(inv.lineItems), USD))
    ensures inv.TaxAmount().Returned? && inv.TaxAmount().value.currency == USD
    ensures inv.TaxAmount().value.amount == SumAmounts(inv.lineItems) * inv.taxRate / 100.0
    ensures inv.TotalAmount().Returned?
    ensures SumAmounts(inv.lineItems) <= inv.TotalAmount().value.amount <= 2.0 * SumAmounts(inv.lineItems)
  {
    assert SumAmounts(inv.lineItems) >= 0.0 by {
      assert forall i :: 0 <= i < |inv.lineItems| ==> inv.lineItems[i] in inv.lineItems;
    }
    TotalsFromSum(inv);
  }

  lemma TotalsFromSum(inv: Invoice)
    requires inv.currency == USD && SumAmounts(inv.lineItems) >= 0.0 && 0.0 <= inv.taxRate <= 100.0
    ensures inv.SubTotal() == Returned(Money(SumAmounts(inv.lineItems), USD))
    ensures inv.TaxAmount().Returned? && inv.TaxAmount().value.currency == USD
    ensures inv.TaxAmount().value.amount == SumAmounts(inv.lineItems) * inv.taxRate / 100.0
    ensures inv.TotalAmount().Returned?
    ensures SumAmounts(inv.lineItems) <= inv.TotalAmount().value.amount <= 2.0 * SumAmounts(inv.lineItems)
  {
    var s := SumAmounts(inv.lineItems);
    var rate := inv.taxRate;
    var t := s * rate / 100.0;
    Arith.ScaledShare(s, rate);
    assert 0.0 <= t <= s;
    UsdMoneyIsValid(s);
    UsdMoneyIsValid(t);
    assert Money(s, USD).Add(Money(t, USD)) == Returned(Money(s + t, USD));
    assert inv.TotalAmount().value.amount == s + t;
  }

  /** Any non-negative amount in USD is valid money. */
  lemma UsdMoneyIsValid(amount: real)
    ensures amount >= 0.0 ==> Money(amount, USD).Valid()
    ensures amount >= 0.0 ==> MoneyValue.Create(amount, USD) == Returned(Money(amount, USD))
  {
    assert ToUpper(USD) == USD;
    assert !IsWhiteSpace(USD[0]);
  }

  /** Only a Sent invoice past its due date is overdue; a Paid or Cancelled one never is. */
  lemma OverdueOnlyWhenSent(inv: Invoice, today: Day)
    ensures inv.IsOverdue(today) ==> inv.status == Sent && today > inv.dueDate
    ensures inv.status == Paid || inv.status == InvoiceStatus.Cancelled || inv.status == Draft ==> !inv.IsOverdue(today)
  {
  }
}
