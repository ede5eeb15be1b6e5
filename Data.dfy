/** The application's database context: the tables the controllers read and change.
    Identity columns start at 1 and grow by 1, so every table lists its rows in strictly
    increasing id order. */
module Data {
  import opened Common
  import opened KycDocumentModel
  import opened UserModel
  import opened PropertyModel
  import opened MaintenanceRequestModel
  import opened PaymentModel

  class ApplicationDb {
    var users: map<int, User>
    var kycDocuments: seq<KycDocument>
    var nextKycDocumentId: int
    var properties: seq<Property>
    var nextPropertyId: int
    var maintenanceRequests: seq<MaintenanceRequest>
    var nextRequestId: int
    var payments: seq<Payment>
    var nextPaymentId: int

    /** Users are keyed by their own id; each table's ids increase and stay below the next
        identity value. */
    ghost predicate Valid()
      reads this
    {
      && (forall k :: k in users ==> users[k].id == k)
      && KeysIncreasing(kycDocuments, DocumentId)
      && (forall i :: 0 <= i < |kycDocuments| ==> kycDocuments[i].id < nextKycDocumentId)
      && KeysIncreasing(properties, PropertyId)
      && (forall i :: 0 <= i < |properties| ==> properties[i].id < nextPropertyId)
      && KeysIncreasing(maintenanceRequests, RequestId)
      && (forall i :: 0 <= i < |maintenanceRequests| ==> maintenanceRequests[i].id < nextRequestId)
      && KeysIncreasing(payments, PaymentId)
      && (forall i :: 0 <= i < |payments| ==> payments[i].id < nextPaymentId)
    }

    constructor ()
      ensures Valid()
      ensures users == map[] && kycDocuments == [] && properties == []
      ensures maintenanceRequests == [] && payments == []
    {
      users := map[];
      kycDocuments := [];
      nextKycDocumentId := 1;
      properties := [];
      nextPropertyId := 1;
      maintenanceRequests := [];
      nextRequestId := 1;
      payments := [];
      nextPaymentId := 1;
    }

    /** The user object stored under `userId`, if any: what a KYC action may change. */
    function UserFrame(userId: int): set<User>
      reads this
    {
      if userId in users then {users[userId]} else {}
    }
  }
}
