// The base class of every aggregate: identity, owning tenant, timestamps
// and the queue of domain events raised but not yet dispatched.  The event
// type is a parameter so that this layer does not depend on the domain.
module Abstractions {
  import opened Core
  import opened Calendar
  import Guard
  import Text

  /** The tenant check the tenant-aware constructor runs. */
  function CheckTenant(tenantId: string): (r: Outcome<()>)
    ensures r.Returned? <==> exists i :: 0 <= i < |tenantId| && !Text.IsWhiteSpace(tenantId[i])
    ensures r.Threw? ==> r.error == ArgumentException("tenantId", "Value cannot be null or empty")
  {
    Guard.AgainstNullOrEmpty(Some(tenantId), "tenantId")
  }

  class BaseEntity<E> {
    const id: Guid
    const tenantId: string
    const createdAt: Instant
    var updatedAt: Instant
    var domainEvents: seq<E>

    /** The constructor once the tenant check has passed; `id` and `now` stand for `Guid.NewGuid()` and `UtcNow`. */
    constructor (tenantId: string, id: Guid, now: Instant)
      requires CheckTenant(tenantId).Returned?
      ensures this.id == id && this.tenantId == tenantId
      ensures createdAt == now && updatedAt == now
      ensures domainEvents == []
    {
      this.id := id;
      this.tenantId := tenantId;
      this.createdAt := now;
      this.updatedAt := now;
      this.domainEvents := [];
    }

    /**
     * `BaseEntity(string tenantId)`: throws for a null, empty or
     * white-space tenant, and otherwise records the tenant as given.
     */
    static method Create(tenantId: string, id: Guid, now: Instant) returns (r: Outcome<BaseEntity<E>>)
      ensures r.Threw? <==> CheckTenant(tenantId).Threw?
      ensures r.Threw? ==> r.error == CheckTenant(tenantId).error
      ensures r.Returned? ==> fresh(r.value) && r.value.id == id && r.value.tenantId == tenantId
      ensures r.Returned? ==> r.value.createdAt == now && r.value.updatedAt == now && r.value.domainEvents == []
    {
      var _ :- CheckTenant(tenantId);
      var e := new BaseEntity(tenantId, id, now);
      return Returned(e);
    }

    /** Appends one event at the end of the queue. */
    method AddDomainEvent(e: E)
      modifies this
      ensures domainEvents == old(domainEvents) + [e]
      ensures updatedAt == old(updatedAt)
    {
      domainEvents := domainEvents + [e];
    }

    method ClearDomainEvents()
      modifies this
      ensures domainEvents == []
      ensures updatedAt == old(updatedAt)
    {
      domainEvents := [];
    }

    /** Changes only `updatedAt`. */
    method UpdateTimestamp(now: Instant)
      modifies this
      ensures updatedAt == now
      ensures domainEvents == old(domainEvents)
    {
      updatedAt := now;
    }

    /** `Equals(object)`: the same object, or an entity with the same id and tenant. */
    predicate Equals(other: BaseEntity?<E>)
    {
      other != null && (other == this || (id == other.id && tenantId == other.tenantId))
    }
  }

  /** Two entities are equal exactly when their ids and tenants agree; equality is an equivalence. */
  lemma EqualsIsIdentityAndTenant<E>(a: BaseEntity<E>, b: BaseEntity<E>, c: BaseEntity<E>)
    ensures a.Equals(b) <==> a.id == b.id && a.tenantId == b.tenantId
    ensures a.Equals(a)
    ensures a.Equals(b) ==> b.Equals(a)
    ensures a.Equals(b) && b.Equals(c) ==> a.Equals(c)
    ensures !a.Equals(null)
  {
  }
}
