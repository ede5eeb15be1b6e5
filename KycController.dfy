/** The Aadhaar OTP KYC flow of the KYC controller.

    Issuing a challenge appends a Pending Aadhaar row carrying the provider's client id and
    marks the caller's KYC as Pending. Verifying looks up the caller's most recently uploaded
    Aadhaar row with that client id, whatever its status, and marks it Failed or Verified; on
    success the caller becomes Aadhaar-verified. Two read-only views mask document numbers.

    The transitions are first stated on values (`KycState`, `GenerateOtpStep`,
    `VerifyOtpStep`); the controller's methods change the database in place and are proved to
    agree with them. */
module KycController {
  import opened Common
  import opened AadhaarVerification
  import opened KycDocumentModel
  import opened UserModel
  import opened Data

  const UserNotFoundMessage: string := "User not found"
  const AlreadyVerifiedMessage: string := "Aadhaar already verified"
  const UnknownChallengeMessage: string := "Invalid client ID or OTP request expired"

  /** The body of a successful OTP issuance. */
  datatype OtpIssued = OtpIssued(
    success: bool,
    message: string,
    clientId: Option<string>,
    mockOtp: Option<string>)

  datatype VerifiedDetails = VerifiedDetails(name: Option<string>, dob: Option<string>, gender: Option<string>)

  /** The body of a successful OTP verification. */
  datatype OtpConfirmed = OtpConfirmed(success: bool, message: string, verifiedDetails: VerifiedDetails)

  /** What a KYC action works on: the caller's KYC fields and the whole document table. */
  datatype KycState = KycState(user: UserKyc, documents: seq<KycDocument>)

  /** What a KYC action produces: its response and the state after it. */
  datatype Step<+T> = Step(response: Response<T>, next: KycState)

  // ---------------------------------------------------------------------------------------
  // Looking up the challenge

  /** The rows the verification lookup considers: the caller's Aadhaar rows carrying the
      client id. The row's status plays no part. */
  predicate MatchesChallenge(d: KycDocument, userId: int, clientId: string) {
    d.userId == userId && d.apiClientId == Some(clientId) && d.documentType == AadhaarType
  }

  /** The position of a matching row with the latest upload time (ties go to the later row),
      or None when no row matches. */
  function MostRecentChallenge(docs: seq<KycDocument>, userId: int, clientId: string): (r: Option<nat>)
    ensures r.Some? ==> r.value < |docs| && MatchesChallenge(docs[r.value], userId, clientId)
    ensures r.Some? ==> forall j :: 0 <= j < |docs| && MatchesChallenge(docs[j], userId, clientId) ==>
                          docs[j].uploadedAt <= docs[r.value].uploadedAt
    ensures r.None? <==> forall j :: 0 <= j < |docs| ==> !MatchesChallenge(docs[j], userId, clientId)
    decreases |docs|
  {
    if |docs| == 0 then None
    else
      var last := |docs| - 1;
      var earlier := MostRecentChallenge(docs[..last], userId, clientId);
      if MatchesChallenge(docs[last], userId, clientId)
         && (earlier.None? || docs[earlier.value].uploadedAt <= docs[last].uploadedAt)
      then Some(last)
      else earlier
  }

  /** Rewriting one row without touching the fields the lookup reads (owner, type, client id,
      upload time) leaves the lookup's answer unchanged. */
  lemma {:induction false} MostRecentChallengeIgnoresOtherFields(
    docs: seq<KycDocument>, i: nat, d: KycDocument, userId: int, clientId: string)
    requires i < |docs|
    requires d.userId == docs[i].userId && d.documentType == docs[i].documentType
    requires d.apiClientId == docs[i].apiClientId && d.uploadedAt == docs[i].uploadedAt
    ensures MostRecentChallenge(docs[i := d], userId, clientId) == MostRecentChallenge(docs, userId, clientId)
    decreases |docs|
  {
    var docs' := docs[i := d];
    var last := |docs| - 1;
    var earlier := MostRecentChallenge(docs[..last], userId, clientId);
    if i < last {
      assert docs'[..last] == docs[..last][i := d];
      MostRecentChallengeIgnoresOtherFields(docs[..last], i, d, userId, clientId);
      assert docs'[last] == docs[last];
    } else {
      assert docs'[..last] == docs[..last];
    }
    assert MostRecentChallenge(docs'[..last], userId, clientId) == earlier;
    var matchesLast := MatchesChallenge(docs[last], userId, clientId);
    assert MatchesChallenge(docs'[last], userId, clientId) == matchesLast;
    assert docs'[last].uploadedAt == docs[last].uploadedAt;
    if earlier.Some? {
      assert docs'[earlier.value].uploadedAt == docs[earlier.value].uploadedAt;
    }
  }

  // ---------------------------------------------------------------------------------------
  // The two transitions

  /** POST generate-otp: refuse a caller already verified, refuse a number the service
      rejects, otherwise record a Pending Aadhaar attempt with the issued client id. */
  function GenerateOtpStep(s: KycState, userId: int, aadhaarNumber: string, newClientId: string,
                           now: Timestamp, newId: int): (t: Step<OtpIssued>)
    requires IsGuidString(newClientId)
    ensures s.user.aadhaarVerified ==> t == Step(BadRequest(Some(AlreadyVerifiedMessage)), s)
    ensures !s.user.aadhaarVerified && !IsAadhaarNumber(aadhaarNumber) ==>
              t == Step(BadRequest(Some(InvalidAadhaarMessage)), s)
    ensures t.response.Ok? <==> !s.user.aadhaarVerified && IsAadhaarNumber(aadhaarNumber)
    ensures t.response.Ok? ==>
              && t.response.value == OtpIssued(true, OtpSentMessage, Some(newClientId), Some(MockOtp))
              && |t.next.documents| == |s.documents| + 1
              && t.next.documents[..|s.documents|] == s.documents
              && t.next.documents[|s.documents|]
                   == NewKycDocument(newId, userId, AadhaarType, aadhaarNumber, now).(apiClientId := Some(newClientId))
              && t.next.user == s.user.(kycStatus := KycPending, kycSubmittedAt := Some(now))
  {
    if s.user.aadhaarVerified then
      Step(BadRequest(Some(AlreadyVerifiedMessage)), s)
    else
      var response := GenerateOtp(aadhaarNumber, newClientId);
      if !response.success then
        Step(BadRequest(Some(response.message)), s)
      else
        var doc := NewKycDocument(newId, userId, AadhaarType, aadhaarNumber, now).(apiClientId := response.clientId);
        Step(Ok(OtpIssued(true, response.message, response.clientId, response.mockOtp)),
             KycState(s.user.(kycStatus := KycPending, kycSubmittedAt := Some(now)), s.documents + [doc]))
  }

  /** The matched row after a successful check: Verified now, with the provider's identity
      and response; the row's owner, type, number, client id and upload time stay. */
  function VerifiedRow(d: KycDocument, response: VerifyResponse, now: Timestamp): (r: KycDocument)
    ensures r.verificationStatus == StatusVerified && r.verifiedAt == Some(now)
    ensures r.verifiedName == response.name && r.dateOfBirth == response.dateOfBirth
    ensures r.gender == response.gender && r.address == response.address
    ensures r.apiResponse == Some(response)
    ensures r.id == d.id && r.userId == d.userId && r.documentType == d.documentType
    ensures r.documentNumber == d.documentNumber && r.apiClientId == d.apiClientId
    ensures r.uploadedAt == d.uploadedAt && r.documentImageUrl == d.documentImageUrl
  {
    d.(verificationStatus := StatusVerified, verifiedAt := Some(now),
       verifiedName := response.name, dateOfBirth := response.dateOfBirth,
       gender := response.gender, address := response.address, apiResponse := Some(response))
  }

  /** POST verify-otp: find the challenge, check the OTP, and mark the row Failed or
      Verified; a success also marks the caller Aadhaar-verified. */
  function VerifyOtpStep(s: KycState, userId: int, clientId: string, otp: string, now: Timestamp): (t: Step<OtpConfirmed>)
    ensures |t.next.documents| == |s.documents|
    ensures var m := MostRecentChallenge(s.documents, userId, clientId);
      && (m.None? ==> t == Step(BadRequest(Some(UnknownChallengeMessage)), s))
      && (t.response.Ok? <==> m.Some? && !IsBlank(clientId) && otp == MockOtp)
      && (forall j :: 0 <= j < |s.documents| && (m.None? || j != m.value) ==> t.next.documents[j] == s.documents[j])
      && (m.Some? && !t.response.Ok? ==>
            && t.response == BadRequest(Some(if IsBlank(clientId) || IsBlank(otp) then InvalidRequestMessage else InvalidOtpMessage))
            && t.next.user == s.user
            && t.next.documents[m.value] == s.documents[m.value].(verificationStatus := StatusFailed))
      && (t.response.Ok? ==>
            && t.response.value == OtpConfirmed(true, VerifiedMessage, VerifiedDetails(Some(MockName), Some(MockDateOfBirth), Some(MockGender)))
            && t.next.documents[m.value] == VerifiedRow(s.documents[m.value], VerifyOtp(clientId, otp), now)
            && t.next.user == s.user.(aadhaarVerified := true, kycStatus := KycVerified, kycVerifiedAt := Some(now)))
    ensures s.user.aadhaarVerified ==> t.next.user.aadhaarVerified
    ensures t.next.user.panVerified == s.user.panVerified && t.next.user.kycSubmittedAt == s.user.kycSubmittedAt
  {
    match MostRecentChallenge(s.documents, userId, clientId)
    case None =>
      Step(BadRequest(Some(UnknownChallengeMessage)), s)
    case Some(i) =>
      var response := VerifyOtp(clientId, otp);
      if !response.success then
        Step(BadRequest(Some(response.message)),
             s.(documents := s.documents[i := s.documents[i].(verificationStatus := StatusFailed)]))
      else
        Step(Ok(OtpConfirmed(true, VerifiedMessage, VerifiedDetails(response.name, response.dateOfBirth, response.gender))),
             KycState(s.user.(aadhaarVerified := true, kycStatus := KycVerified, kycVerifiedAt := Some(now)),
                      s.documents[i := VerifiedRow(s.documents[i], response, now)]))
  }

  // ---------------------------------------------------------------------------------------
  // What the transitions keep, and what they do not

  /** Some Aadhaar row of the user is Verified. */
  predicate HasVerifiedAadhaar(docs: seq<KycDocument>, userId: int) {
    exists i :: 0 <= i < |docs| && docs[i].userId == userId && IsVerifiedAadhaar(docs[i])
  }

  predicate IsVerifiedAadhaar(d: KycDocument) {
    d.documentType == AadhaarType && d.verificationStatus == StatusVerified
  }

  /** The half of "verified iff some Aadhaar row is Verified" that the code keeps. */
  predicate VerifiedRowImpliesFlag(s: KycState, userId: int) {
    HasVerifiedAadhaar(s.documents, userId) ==> s.user.aadhaarVerified
  }

  lemma GenerateOtpStepKeepsVerifiedRowImpliesFlag(s: KycState, userId: int, aadhaarNumber: string,
                                                   newClientId: string, now: Timestamp, newId: int)
    requires IsGuidString(newClientId)
    requires VerifiedRowImpliesFlag(s, userId)
    ensures VerifiedRowImpliesFlag(GenerateOtpStep(s, userId, aadhaarNumber, newClientId, now, newId).next, userId)
  {
  }

  lemma VerifyOtpStepKeepsVerifiedRowImpliesFlag(s: KycState, userId: int, clientId: string, otp: string, now: Timestamp)
    requires VerifiedRowImpliesFlag(s, userId)
    ensures VerifiedRowImpliesFlag(VerifyOtpStep(s, userId, clientId, otp, now).next, userId)
  {
    var t := VerifyOtpStep(s, userId, clientId, otp, now);
    var m := MostRecentChallenge(s.documents, userId, clientId);
    if !t.response.Ok? && HasVerifiedAadhaar(t.next.documents, userId) {
      var i :| 0 <= i < |t.next.documents| && t.next.documents[i].userId == userId && IsVerifiedAadhaar(t.next.documents[i]);
      assert m.Some? ==> i != m.value;
      assert t.next.documents[i] == s.documents[i];
    }
  }

  /** The other half does not hold: when the user's only Verified row came from a challenge,
      replaying that client id with a wrong OTP turns the row Failed while the user stays
      Aadhaar-verified. */
  lemma FlagOutlivesItsVerifiedRow(s: KycState, userId: int, clientId: string, now: Timestamp,
                                   badOtp: string, later: Timestamp)
    requires !HasVerifiedAadhaar(s.documents, userId)
    requires VerifyOtpStep(s, userId, clientId, MockOtp, now).response.Ok?
    requires badOtp != MockOtp
    ensures var s1 := VerifyOtpStep(s, userId, clientId, MockOtp, now).next;
      var s2 := VerifyOtpStep(s1, userId, clientId, badOtp, later).next;
      && s1.user.aadhaarVerified && HasVerifiedAadhaar(s1.documents, userId)
      && s2.user.aadhaarVerified && !HasVerifiedAadhaar(s2.documents, userId)
  {
    var i := MostRecentChallenge(s.documents, userId, clientId).value;
    var s1 := VerifyOtpStep(s, userId, clientId, MockOtp, now).next;
    assert s1.documents == s.documents[i := s1.documents[i]];
    MostRecentChallengeIgnoresOtherFields(s.documents, i, s1.documents[i], userId, clientId);
    assert IsVerifiedAadhaar(s1.documents[i]);
    var s2 := VerifyOtpStep(s1, userId, clientId, badOtp, later).next;
    forall j | 0 <= j < |s2.documents| && s2.documents[j].userId == userId
      ensures !IsVerifiedAadhaar(s2.documents[j])
    {
      if j != i {
        assert s2.documents[j] == s.documents[j];
      }
    }
  }

  /** Verification is not one-shot: once a challenge succeeded, presenting the same client id
      and OTP again matches the same, already Verified, row and succeeds again. */
  lemma {:induction false} VerifiedChallengeCanBeReplayed(s: KycState, userId: int, clientId: string,
                                                          otp: string, now: Timestamp, later: Timestamp)
    requires VerifyOtpStep(s, userId, clientId, otp, now).response.Ok?
    ensures var s' := VerifyOtpStep(s, userId, clientId, otp, now).next;
      && MostRecentChallenge(s'.documents, userId, clientId) == MostRecentChallenge(s.documents, userId, clientId)
      && s'.documents[MostRecentChallenge(s.documents, userId, clientId).value].verificationStatus == StatusVerified
      && VerifyOtpStep(s', userId, clientId, otp, later).response.Ok?
  {
    var i := MostRecentChallenge(s.documents, userId, clientId).value;
    var s' := VerifyOtpStep(s, userId, clientId, otp, now).next;
    assert s'.documents == s.documents[i := s'.documents[i]];
    MostRecentChallengeIgnoresOtherFields(s.documents, i, s'.documents[i], userId, clientId);
  }

  /** Issuing and then verifying the issued client id with the mock OTP verifies the new row,
      provided no earlier row of the table carries that client id. */
  lemma IssueThenVerifyWithMockOtp(s: KycState, userId: int, aadhaarNumber: string, newClientId: string,
                                   issuedAt: Timestamp, newId: int, verifiedAt: Timestamp)
    requires IsGuidString(newClientId)
    requires !s.user.aadhaarVerified && IsAadhaarNumber(aadhaarNumber)
    requires forall j :: 0 <= j < |s.documents| ==> s.documents[j].apiClientId != Some(newClientId)
    ensures var s1 := GenerateOtpStep(s, userId, aadhaarNumber, newClientId, issuedAt, newId).next;
      var t := VerifyOtpStep(s1, userId, newClientId, MockOtp, verifiedAt);
      && MostRecentChallenge(s1.documents, userId, newClientId) == Some(|s.documents|)
      && t.response.Ok?
      && t.next.documents[|s.documents|].verificationStatus == StatusVerified
      && t.next.documents[|s.documents|].documentNumber == aadhaarNumber
      && t.next.user.aadhaarVerified && t.next.user.kycStatus == KycVerified
  {
    var s1 := GenerateOtpStep(s, userId, aadhaarNumber, newClientId, issuedAt, newId).next;
    assert MatchesChallenge(s1.documents[|s.documents|], userId, newClientId);
    GuidIsNotBlank(newClientId);
  }

  // ---------------------------------------------------------------------------------------
  // The read-only views

  /** `lastFourDigits`: the last four characters when there are at least four, else "". */
  function LastFourDigits(number: string): (r: string)
    ensures |number| >= 4 ==> |r| == 4 && number == number[..|number| - 4] + r
    ensures |number| < 4 ==> r == ""
  {
    if |number| >= 4 then number[|number| - 4..] else ""
  }

  /** `maskedNumber`: eight stars and the last four characters, or four stars for a number
      shorter than four characters. */
  function MaskedNumber(number: string): (r: string)
    ensures |number| >= 4 ==> |r| == 12 && r == "********" + LastFourDigits(number)
    ensures |number| < 4 ==> r == "****"
  {
    if |number| >= 4 then "********" + number[|number| - 4..] else "****"
  }

  /** The document list masks like the service's log mask, except for numbers of four or more
      characters that are all whitespace, which the service masks as four stars. */
  lemma MaskedNumberAgreesWithServiceMask(number: string)
    ensures MaskedNumber(number) == MaskAadhaar(number) <==> !(IsBlank(number) && |number| >= 4)
  {
    if IsBlank(number) && |number| >= 4 {
      assert |MaskedNumber(number)| != |MaskAadhaar(number)|;
    }
  }

  datatype AadhaarDetails = AadhaarDetails(
    name: Option<string>,
    dob: Option<string>,
    gender: Option<string>,
    lastFourDigits: string)

  datatype PanDetails = PanDetails(panNumber: string, status: string)

  datatype KycStatusView = KycStatusView(
    kycStatus: string,
    aadhaarVerified: bool,
    panVerified: bool,
    kycSubmittedAt: Option<Timestamp>,
    kycVerifiedAt: Option<Timestamp>,
    aadhaarDetails: Option<AadhaarDetails>,
    panDetails: Option<PanDetails>)

  predicate IsPan(d: KycDocument) {
    d.documentType == PanType
  }

  function OwnedBy(docs: seq<KycDocument>, userId: int): (r: seq<KycDocument>)
    ensures forall d :: d in r <==> d in docs && d.userId == userId
  {
    Filter(docs, (d: KycDocument) => d.userId == userId)
  }

  /** The first row of the user satisfying `p`, in table order, if there is one. */
  function FirstOwned(docs: seq<KycDocument>, userId: int, p: KycDocument -> bool): (r: Option<KycDocument>)
    ensures r.Some? ==> r.value in docs && r.value.userId == userId && p(r.value)
    ensures r.None? <==> forall i :: 0 <= i < |docs| && docs[i].userId == userId ==> !p(docs[i])
  {
    var owned := OwnedBy(docs, userId);
    match FindFirst(owned, p)
    case None => None
    case Some(k) => Some(owned[k])
  }

  /** GET status: the caller's KYC fields, the details of one Verified Aadhaar row of the
      caller (the number cut to its last four characters) if there is one, and the first PAN
      row of the caller, whose number is returned in full. */
  function StatusView(user: UserKyc, docs: seq<KycDocument>, userId: int): (v: KycStatusView)
    ensures v.kycStatus == user.kycStatus && v.aadhaarVerified == user.aadhaarVerified
    ensures v.panVerified == user.panVerified
    ensures v.kycSubmittedAt == user.kycSubmittedAt && v.kycVerifiedAt == user.kycVerifiedAt
    ensures v.aadhaarDetails.Some? <==> HasVerifiedAadhaar(docs, userId)
    ensures v.aadhaarDetails.Some? ==>
              exists i :: 0 <= i < |docs| && docs[i].userId == userId && IsVerifiedAadhaar(docs[i])
                && v.aadhaarDetails.value == AadhaarDetails(docs[i].verifiedName, docs[i].dateOfBirth,
                                                            docs[i].gender, LastFourDigits(docs[i].documentNumber))
    ensures v.panDetails.Some? <==> exists i :: 0 <= i < |docs| && docs[i].userId == userId && IsPan(docs[i])
    ensures v.panDetails.Some? ==>
              exists i :: 0 <= i < |docs| && docs[i].userId == userId && IsPan(docs[i])
                && v.panDetails.value == PanDetails(docs[i].documentNumber, docs[i].verificationStatus)
  {
    var aadhaar := FirstOwned(docs, userId, IsVerifiedAadhaar);
    var pan := FirstOwned(docs, userId, IsPan);
    KycStatusView(
      user.kycStatus, user.aadhaarVerified, user.panVerified, user.kycSubmittedAt, user.kycVerifiedAt,
      match aadhaar
      case None => None
      case Some(d) => Some(AadhaarDetails(d.verifiedName, d.dateOfBirth, d.gender, LastFourDigits(d.documentNumber))),
      match pan
      case None => None
      case Some(d) => Some(PanDetails(d.documentNumber, d.verificationStatus)))
  }

  datatype DocumentView = DocumentView(
    id: int,
    documentType: string,
    maskedNumber: string,
    verificationStatus: string,
    uploadedAt: Timestamp,
    verifiedAt: Option<Timestamp>,
    verifiedName: Option<string>)

  function ViewOf(d: KycDocument): DocumentView {
    DocumentView(d.id, d.documentType, MaskedNumber(d.documentNumber), d.verificationStatus,
                 d.uploadedAt, d.verifiedAt, d.verifiedName)
  }

  /** GET documents: one masked entry per row of the caller, in table order. */
  function DocumentViews(docs: seq<KycDocument>, userId: int): (r: seq<DocumentView>)
    ensures |r| == |OwnedBy(docs, userId)|
    ensures forall k :: 0 <= k < |r| ==> exists i :: 0 <= i < |docs| && docs[i].userId == userId && r[k] == ViewOf(docs[i])
  {
    var owned := OwnedBy(docs, userId);
    var r := seq(|owned|, k requires 0 <= k < |owned| => ViewOf(owned[k]));
    assert forall k :: 0 <= k < |r| ==> owned[k] in docs;
    r
  }

  /** With distinct row ids, the list holds exactly one entry for each row of the caller. */
  lemma DocumentViewsHaveOneEntryPerRow(docs: seq<KycDocument>, userId: int, i: int)
    requires KeysIncreasing(docs, DocumentId)
    requires 0 <= i < |docs| && docs[i].userId == userId
    ensures var r := DocumentViews(docs, userId);
      exists k :: 0 <= k < |r| && r[k] == ViewOf(docs[i])
        && forall k' :: 0 <= k' < |r| && r[k'].id == docs[i].id ==> k' == k
  {
    var owned := OwnedBy(docs, userId);
    var r := DocumentViews(docs, userId);
    FilterKeepsKeysIncreasing(docs, (d: KycDocument) => d.userId == userId, DocumentId);
    assert docs[i] in owned;
    var k :| 0 <= k < |owned| && owned[k] == docs[i];
    assert r[k] == ViewOf(docs[i]);
    forall k' | 0 <= k' < |r| && r[k'].id == docs[i].id ensures k' == k {
      assert DocumentId(owned[k']) == DocumentId(owned[k]);
      KeyIdentifiesPosition(owned, DocumentId, k', k);
    }
  }

  // ---------------------------------------------------------------------------------------
  // The controller's actions on the database

  function GetKycStatus(db: ApplicationDb, userId: int): (r: Response<KycStatusView>)
    reads db, db.users.Values
    ensures userId !in db.users ==> r == NotFound(Some(UserNotFoundMessage))
    ensures userId in db.users ==> r == Ok(StatusView(db.users[userId].Kyc(), db.kycDocuments, userId))
  {
    if userId !in db.users then NotFound(Some(UserNotFoundMessage))
    else Ok(StatusView(db.users[userId].Kyc(), db.kycDocuments, userId))
  }

  function GetDocuments(db: ApplicationDb, userId: int): (r: Response<seq<DocumentView>>)
    reads db
    ensures r == Ok(DocumentViews(db.kycDocuments, userId))
  {
    Ok(DocumentViews(db.kycDocuments, userId))
  }

  method GenerateAadhaarOtp(db: ApplicationDb, userId: int, aadhaarNumber: string, newClientId: string,
                            now: Timestamp) returns (r: Response<OtpIssued>)
    requires db.Valid() && IsGuidString(newClientId)
    modifies db`kycDocuments, db`nextKycDocumentId
    modifies db.UserFrame(userId)`kycStatus, db.UserFrame(userId)`kycSubmittedAt
    ensures db.Valid()
    ensures userId !in db.users ==>
              r == NotFound(Some(UserNotFoundMessage)) && db.kycDocuments == old(db.kycDocuments)
    ensures userId in db.users ==>
              var t := GenerateOtpStep(old(KycState(db.users[userId].Kyc(), db.kycDocuments)), userId,
                                       aadhaarNumber, newClientId, now, old(db.nextKycDocumentId));
              r == t.response && db.users[userId].Kyc() == t.next.user && db.kycDocuments == t.next.documents
  {
    if userId !in db.users {
      return NotFound(Some(UserNotFoundMessage));
    }
    var user := db.users[userId];
    if user.aadhaarVerified {
      return BadRequest(Some(AlreadyVerifiedMessage));
    }
    var response := GenerateOtp(aadhaarNumber, newClientId);
    if !response.success {
      return BadRequest(Some(response.message));
    }
    var doc := NewKycDocument(db.nextKycDocumentId, userId, AadhaarType, aadhaarNumber, now)
                 .(apiClientId := response.clientId);
    db.kycDocuments := db.kycDocuments + [doc];
    db.nextKycDocumentId := db.nextKycDocumentId + 1;
    user.kycStatus := KycPending;
    user.kycSubmittedAt := Some(now);
    r := Ok(OtpIssued(true, response.message, response.clientId, response.mockOtp));
  }

  method VerifyAadhaarOtp(db: ApplicationDb, userId: int, clientId: string, otp: string, now: Timestamp)
    returns (r: Response<OtpConfirmed>)
    requires db.Valid()
    modifies db`kycDocuments
    modifies db.UserFrame(userId)`aadhaarVerified, db.UserFrame(userId)`kycStatus
    modifies db.UserFrame(userId)`kycVerifiedAt
    ensures db.Valid()
    ensures userId !in db.users ==>
              r == NotFound(Some(UserNotFoundMessage)) && db.kycDocuments == old(db.kycDocuments)
    ensures userId in db.users ==>
              var t := VerifyOtpStep(old(KycState(db.users[userId].Kyc(), db.kycDocuments)), userId,
                                     clientId, otp, now);
              r == t.response && db.users[userId].Kyc() == t.next.user && db.kycDocuments == t.next.documents
  {
    if userId !in db.users {
      return NotFound(Some(UserNotFoundMessage));
    }
    var user := db.users[userId];
    ghost var s := KycState(user.Kyc(), db.kycDocuments);
    ghost var t := VerifyOtpStep(s, userId, clientId, otp, now);
    var found := MostRecentChallenge(db.kycDocuments, userId, clientId);
    if found.None? {
      return BadRequest(Some(UnknownChallengeMessage));
    }
    var i := found.value;
    var response := VerifyOtp(clientId, otp);
    if !response.success {
      var failed := db.kycDocuments[i].(verificationStatus := StatusFailed);
      ReplaceKeepsKeysIncreasing(db.kycDocuments, DocumentId, i, failed);
      db.kycDocuments := db.kycDocuments[i := failed];
      assert t.next == s.(documents := db.kycDocuments);
      return BadRequest(Some(response.message));
    }
    var verified := VerifiedRow(db.kycDocuments[i], response, now);
    ReplaceKeepsKeysIncreasing(db.kycDocuments, DocumentId, i, verified);
    db.kycDocuments := db.kycDocuments[i := verified];
    user.aadhaarVerified := true;
    user.kycStatus := KycVerified;
    user.kycVerifiedAt := Some(now);
    r := Ok(OtpConfirmed(true, VerifiedMessage, VerifiedDetails(response.name, response.dateOfBirth, response.gender)));
    assert t == Step(r, KycState(user.Kyc(), db.kycDocuments));
  }
}
