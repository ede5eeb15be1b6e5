/** A KYC document row: one per OTP challenge (Aadhaar) or uploaded document (PAN).
    Every row belongs to exactly one user through `userId`. */
module KycDocumentModel {
  import opened Common
  import opened AadhaarVerification

  const AadhaarType: string := "Aadhaar"
  const PanType: string := "PAN"

  /** The documented values of VerificationStatus. */
  const StatusPending: string := "Pending"
  const StatusVerified: string := "Verified"
  const StatusFailed: string := "Failed"

  /** `apiResponse` keeps the provider's verification response as a value; the source keeps
      its JSON serialisation. */
  datatype KycDocument = KycDocument(
    id: int,
    userId: int,
    documentType: string,
    documentNumber: string,
    documentImageUrl: Option<string>,
    verificationStatus: string,
    uploadedAt: Timestamp,
    verifiedAt: Option<Timestamp>,
    verifiedName: Option<string>,
    dateOfBirth: Option<string>,
    gender: Option<string>,
    address: Option<string>,
    apiClientId: Option<string>,
    apiResponse: Option<VerifyResponse>)

  function DocumentId(d: KycDocument): int { d.id }

  /** A row as object initialisation leaves it: Pending, uploaded now, nothing verified,
      no image, no provider correlation and no provider response. */
  function NewKycDocument(id: int, userId: int, documentType: string, documentNumber: string,
                          now: Timestamp): (d: KycDocument)
    ensures d.id == id && d.userId == userId
    ensures d.documentType == documentType && d.documentNumber == documentNumber
    ensures d.verificationStatus == StatusPending && d.uploadedAt == now
    ensures d.verifiedAt.None? && d.documentImageUrl.None?
    ensures d.verifiedName.None? && d.dateOfBirth.None? && d.gender.None? && d.address.None?
    ensures d.apiClientId.None? && d.apiResponse.None?
  {
    KycDocument(id, userId, documentType, documentNumber, None, StatusPending, now,
                None, None, None, None, None, None, None)
  }
}

/** The user account, of which the KYC core reads and writes the KYC fields. */
module UserModel {
  import opened Common

  /** The documented values of KYCStatus. */
  const KycNotSubmitted: string := "NotSubmitted"
  const KycPending: string := "Pending"
  const KycVerified: string := "Verified"
  const KycRejected: string := "Rejected"

  /** The KYC fields of one user, as a value. */
  datatype UserKyc = UserKyc(
    kycStatus: string,
    kycSubmittedAt: Option<Timestamp>,
    kycVerifiedAt: Option<Timestamp>,
    aadhaarVerified: bool,
    panVerified: bool)

  /** The KYC fields of a newly created user. */
  function NewUserKyc(): (k: UserKyc)
    ensures k.kycStatus == KycNotSubmitted
    ensures k.kycSubmittedAt.None? && k.kycVerifiedAt.None?
    ensures !k.aadhaarVerified && !k.panVerified
  {
    UserKyc(KycNotSubmitted, None, None, false, false)
  }

  /** `role` is documented as "owner" or "tenant". */
  class User {
    const id: int
    var name: string
    var email: string
    var passwordHash: string
    var role: string
    var kycStatus: string
    var kycSubmittedAt: Option<Timestamp>
    var kycVerifiedAt: Option<Timestamp>
    var aadhaarVerified: bool
    var panVerified: bool

    constructor (id: int, name: string, email: string, passwordHash: string, role: string)
      ensures this.id == id && this.name == name && this.email == email
      ensures this.passwordHash == passwordHash && this.role == role
      ensures Kyc() == NewUserKyc()
    {
      this.id := id;
      this.name := name;
      this.email := email;
      this.passwordHash := passwordHash;
      this.role := role;
      kycStatus := KycNotSubmitted;
      kycSubmittedAt := None;
      kycVerifiedAt := None;
      aadhaarVerified := false;
      panVerified := false;
    }

    function Kyc(): UserKyc
      reads this
    {
      UserKyc(kycStatus, kycSubmittedAt, kycVerifiedAt, aadhaarVerified, panVerified)
    }
  }
}

/** A rental property. `ownerId` is required; `tenantId` is optional. */
module PropertyModel {
  import opened Common

  const Occupied: string := "Occupied"
  const Vacant: string := "Vacant"

  datatype Property = Property(
    id: int,
    title: string,
    address: string,
    rentAmount: Cents,
    imageUrl: string,
    status: string,
    ownerId: int,
    tenantId: Option<int>)

  function PropertyId(p: Property): int { p.id }

  /** A property as object initialisation leaves it: Vacant, untenanted, empty texts, and the
      integer fields at zero. */
  function NewProperty(): (p: Property)
    ensures p.status == Vacant && p.tenantId.None?
    ensures p.title == "" && p.address == "" && p.imageUrl == ""
    ensures p.id == 0 && p.ownerId == 0 && p.rentAmount == 0
  {
    Property(0, "", "", 0, "", Vacant, 0, None)
  }
}

/** A maintenance request, tied to one property and one tenant. */
module MaintenanceRequestModel {
  import opened Common

  /** The documented values of Status. */
  const RequestPending: string := "Pending"
  const RequestResolved: string := "Resolved"
  const RequestRejected: string := "Rejected"

  datatype MaintenanceRequest = MaintenanceRequest(
    id: int,
    title: string,
    description: string,
    status: string,
    kind: string,
    priority: string,
    date: Timestamp,
    propertyId: int,
    tenantId: int)

  function RequestId(r: MaintenanceRequest): int { r.id }

  /** A request as object initialisation leaves it at time `now`: Pending, General, Medium,
      empty texts, and the integer fields at zero. */
  function NewMaintenanceRequest(now: Timestamp): (r: MaintenanceRequest)
    ensures r.status == RequestPending && r.kind == "General" && r.priority == "Medium"
    ensures r.title == "" && r.description == "" && r.date == now
    ensures r.id == 0 && r.propertyId == 0 && r.tenantId == 0
  {
    MaintenanceRequest(0, "", "", RequestPending, "General", "Medium", now, 0, 0)
  }
}

/** A rent payment, tied to one property and one tenant. */
module PaymentModel {
  import opened Common

  const PaymentCompleted: string := "Completed"

  datatype Payment = Payment(
    id: int,
    amount: Cents,
    date: Timestamp,
    status: string,
    propertyId: int,
    tenantId: int)

  function PaymentId(p: Payment): int { p.id }

  /** A payment as object initialisation leaves it at time `now`: Completed, dated now, and
      the numeric fields at zero. */
  function NewPayment(now: Timestamp): (p: Payment)
    ensures p.status == PaymentCompleted && p.date == now
    ensures p.id == 0 && p.amount == 0 && p.propertyId == 0 && p.tenantId == 0
  {
    Payment(0, 0, now, PaymentCompleted, 0, 0)
  }
}
