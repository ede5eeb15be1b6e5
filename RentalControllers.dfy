/** Properties: everyone lists all of them, an owner lists and changes only their own. */
module PropertiesController {
  import opened Common
  import opened PropertyModel
  import opened Data

  /** The position of the property with this id (EF's lookup by key). */
  function PropertyIndex(properties: seq<Property>, id: int): (r: Option<nat>)
    ensures r.Some? ==> r.value < |properties| && properties[r.value].id == id
    ensures r.None? <==> forall j :: 0 <= j < |properties| ==> properties[j].id != id
  {
    FindFirst(properties, (p: Property) => p.id == id)
  }

  /** GET: every stored property. */
  function GetProperties(db: ApplicationDb): (r: seq<Property>)
    reads db
    ensures r == db.properties
  {
    db.properties
  }

  /** GET owner: exactly the caller's properties, each once, in table order. */
  function GetMyProperties(db: ApplicationDb, callerId: int): (r: seq<Property>)
    reads db
    ensures forall p :: p in r <==> p in db.properties && p.ownerId == callerId
    ensures forall p :: multiset(r)[p] == if p.ownerId == callerId then multiset(db.properties)[p] else 0
  {
    Filter(db.properties, (p: Property) => p.ownerId == callerId)
  }

  /** Every listed property shows up in its own owner's list, and in no other owner's. */
  lemma ListedPropertyBelongsToItsOwner(db: ApplicationDb, p: Property, callerId: int)
    requires p in GetProperties(db)
    ensures p in GetMyProperties(db, p.ownerId)
    ensures p in GetMyProperties(db, callerId) <==> callerId == p.ownerId
  {
  }

  /** POST: stores the body as a new property of the caller, whatever owner the body names. */
  method PostProperty(db: ApplicationDb, callerId: int, property: Property) returns (r: Response<Property>)
    requires db.Valid()
    modifies db`properties, db`nextPropertyId
    ensures db.Valid()
    ensures r == Created(property.(id := old(db.nextPropertyId), ownerId := callerId))
    ensures db.properties == old(db.properties) + [r.value]
    ensures forall j :: 0 <= j < |old(db.properties)| ==> old(db.properties)[j].id != r.value.id
  {
    var stored := property.(id := db.nextPropertyId, ownerId := callerId);
    db.properties := db.properties + [stored];
    db.nextPropertyId := db.nextPropertyId + 1;
    r := Created(stored);
  }

  /** PUT: the route id must equal the body's id (else BadRequest), the property must exist
      (else NotFound) and belong to the caller (else Forbid); then the body replaces it, still
      owned by the caller. */
  method PutProperty(db: ApplicationDb, callerId: int, id: int, property: Property) returns (r: Response<()>)
    requires db.Valid()
    modifies db`properties
    ensures db.Valid()
    ensures var found := PropertyIndex(old(db.properties), id);
      && (id != property.id ==> r == BadRequest(None))
      && (id == property.id && found.None? ==> r == NotFound(None))
      && (id == property.id && found.Some? && old(db.properties)[found.value].ownerId != callerId ==> r == Forbid)
      && (id == property.id && found.Some? && old(db.properties)[found.value].ownerId == callerId ==> r == NoContent)
      && (r != NoContent ==> db.properties == old(db.properties))
      && (r == NoContent ==> found.Some? && db.properties == old(db.properties)[found.value := property.(ownerId := callerId)])
    ensures |db.properties| == |old(db.properties)|
    ensures forall j :: 0 <= j < |db.properties| ==>
              db.properties[j].ownerId == old(db.properties)[j].ownerId && db.properties[j].id == old(db.properties)[j].id
  {
    if id != property.id {
      return BadRequest(None);
    }
    var found := PropertyIndex(db.properties, id);
    if found.None? {
      return NotFound(None);
    }
    var i := found.value;
    if db.properties[i].ownerId != callerId {
      return Forbid;
    }
    db.properties := db.properties[i := property.(ownerId := callerId)];
    r := NoContent;
  }

  /** DELETE: the property must exist (else NotFound) and belong to the caller (else
      Forbid); then exactly that property is removed. */
  method DeleteProperty(db: ApplicationDb, callerId: int, id: int) returns (r: Response<()>)
    requires db.Valid()
    modifies db`properties
    ensures db.Valid()
    ensures var found := PropertyIndex(old(db.properties), id);
      && (found.None? ==> r == NotFound(None))
      && (found.Some? && old(db.properties)[found.value].ownerId != callerId ==> r == Forbid)
      && (found.Some? && old(db.properties)[found.value].ownerId == callerId ==> r == NoContent)
      && (r != NoContent ==> db.properties == old(db.properties))
      && (r == NoContent ==>
            && found.Some? && old(db.properties)[found.value].ownerId == callerId
            && db.properties == old(db.properties)[..found.value] + old(db.properties)[found.value + 1..])
    ensures r == NoContent ==> forall p :: p in db.properties <==> p in old(db.properties) && p.id != id
  {
    var found := PropertyIndex(db.properties, id);
    if found.None? {
      return NotFound(None);
    }
    var i := found.value;
    if db.properties[i].ownerId != callerId {
      return Forbid;
    }
    RemoveKeepsKeysIncreasing(db.properties, PropertyId, i);
    RemoveDropsExactlyThatKey(db.properties, PropertyId, i);
    db.properties := db.properties[..i] + db.properties[i + 1..];
    r := NoContent;
  }
}

/** Maintenance requests: owners see the requests on their properties, everyone else the
    requests they filed; tenants file them and anyone may set their status. */
module RequestsController {
  import opened Common
  import opened PropertyModel
  import opened MaintenanceRequestModel
  import opened Data

  /** The role string the owner branch tests for, compared case-sensitively. */
  const OwnerRole: string := "Owner"

  /** The owner of the property with this id, if such a property exists. */
  function OwnerOf(properties: seq<Property>, propertyId: int): (r: Option<int>)
    ensures r.None? <==> forall j :: 0 <= j < |properties| ==> properties[j].id != propertyId
    ensures r.Some? ==> exists j :: 0 <= j < |properties| && properties[j].id == propertyId && properties[j].ownerId == r.value
  {
    match FindFirst(properties, (p: Property) => p.id == propertyId)
    case None => None
    case Some(j) => Some(properties[j].ownerId)
  }

  function RequestIndex(requests: seq<MaintenanceRequest>, id: int): (r: Option<nat>)
    ensures r.Some? ==> r.value < |requests| && requests[r.value].id == id
    ensures r.None? <==> forall j :: 0 <= j < |requests| ==> requests[j].id != id
  {
    FindFirst(requests, (q: MaintenanceRequest) => q.id == id)
  }

  /** GET: with role exactly "Owner", the requests on properties the caller owns; with any
      other role, or none, the requests the caller filed. Each listed request appears as often
      as in the table. */
  function GetRequests(db: ApplicationDb, callerId: int, role: Option<string>): (r: seq<MaintenanceRequest>)
    reads db
    ensures role == Some(OwnerRole) ==>
              forall q :: q in r <==> q in db.maintenanceRequests && OwnerOf(db.properties, q.propertyId) == Some(callerId)
    ensures role != Some(OwnerRole) ==>
              forall q :: q in r <==> q in db.maintenanceRequests && q.tenantId == callerId
    ensures forall q :: q in r ==> multiset(r)[q] == multiset(db.maintenanceRequests)[q]
  {
    var properties := db.properties;
    if role == Some(OwnerRole) then
      Filter(db.maintenanceRequests, (q: MaintenanceRequest) => OwnerOf(properties, q.propertyId) == Some(callerId))
    else
      Filter(db.maintenanceRequests, (q: MaintenanceRequest) => q.tenantId == callerId)
  }

  /** The role check is case-sensitive: the lower-case "owner" role gets the tenant's list. */
  lemma LowerCaseOwnerRoleGetsTenantList(db: ApplicationDb, callerId: int)
    ensures GetRequests(db, callerId, Some("owner")) == GetRequests(db, callerId, Some("tenant"))
    ensures forall q :: q in GetRequests(db, callerId, Some("owner")) ==> q.tenantId == callerId
  {
    assert "owner" != OwnerRole;
  }

  /** POST: stores the body as a new Pending request filed now by the caller. */
  method PostRequest(db: ApplicationDb, callerId: int, request: MaintenanceRequest, now: Timestamp)
    returns (r: Response<MaintenanceRequest>)
    requires db.Valid()
    modifies db`maintenanceRequests, db`nextRequestId
    ensures db.Valid()
    ensures r == Created(request.(id := old(db.nextRequestId), tenantId := callerId, date := now, status := RequestPending))
    ensures db.maintenanceRequests == old(db.maintenanceRequests) + [r.value]
    ensures forall j :: 0 <= j < |old(db.maintenanceRequests)| ==> old(db.maintenanceRequests)[j].id != r.value.id
  {
    var stored := request.(id := db.nextRequestId, tenantId := callerId, date := now, status := RequestPending);
    db.maintenanceRequests := db.maintenanceRequests + [stored];
    db.nextRequestId := db.nextRequestId + 1;
    r := Created(stored);
  }

  /** PUT: sets the status of an existing request to the given text, unchecked; NotFound for
      an unknown id. */
  method UpdateRequestStatus(db: ApplicationDb, id: int, status: string) returns (r: Response<()>)
    requires db.Valid()
    modifies db`maintenanceRequests
    ensures db.Valid()
    ensures var found := RequestIndex(old(db.maintenanceRequests), id);
      && (found.None? ==> r == NotFound(None) && db.maintenanceRequests == old(db.maintenanceRequests))
      && (found.Some? ==>
            && r == NoContent
            && db.maintenanceRequests == old(db.maintenanceRequests)[found.value := old(db.maintenanceRequests)[found.value].(status := status)])
  {
    var found := RequestIndex(db.maintenanceRequests, id);
    if found.None? {
      return NotFound(None);
    }
    var i := found.value;
    db.maintenanceRequests := db.maintenanceRequests[i := db.maintenanceRequests[i].(status := status)];
    r := NoContent;
  }
}

/** Payments: owners see payments on their properties, everyone else their own payments;
    tenants record them. */
module PaymentsController {
  import opened Common
  import opened PaymentModel
  import opened RequestsController
  import opened Data

  /** GET: with role exactly "Owner", the payments on properties the caller owns; with any
      other role, or none, the caller's own payments. */
  function GetPayments(db: ApplicationDb, callerId: int, role: Option<string>): (r: seq<Payment>)
    reads db
    ensures role == Some(OwnerRole) ==>
              forall p :: p in r <==> p in db.payments && OwnerOf(db.properties, p.propertyId) == Some(callerId)
    ensures role != Some(OwnerRole) ==>
              forall p :: p in r <==> p in db.payments && p.tenantId == callerId
    ensures forall p :: p in r ==> multiset(r)[p] == multiset(db.payments)[p]
  {
    var properties := db.properties;
    if role == Some(OwnerRole) then
      Filter(db.payments, (p: Payment) => OwnerOf(properties, p.propertyId) == Some(callerId))
    else
      Filter(db.payments, (p: Payment) => p.tenantId == callerId)
  }

  /** POST: stores the body as a new Completed payment made now by the caller, keeping the
      body's amount and property. */
  method PostPayment(db: ApplicationDb, callerId: int, payment: Payment, now: Timestamp) returns (r: Response<Payment>)
    requires db.Valid()
    modifies db`payments, db`nextPaymentId
    ensures db.Valid()
    ensures r == Created(payment.(id := old(db.nextPaymentId), tenantId := callerId, date := now, status := PaymentCompleted))
    ensures r.value.amount == payment.amount && r.value.propertyId == payment.propertyId
    ensures db.payments == old(db.payments) + [r.value]
    ensures forall j :: 0 <= j < |old(db.payments)| ==> old(db.payments)[j].id != r.value.id
  {
    var stored := payment.(id := db.nextPaymentId, tenantId := callerId, date := now, status := PaymentCompleted);
    db.payments := db.payments + [stored];
    db.nextPaymentId := db.nextPaymentId + 1;
    r := Created(stored);
  }
}
