# Rental management server: Aadhaar OTP KYC and the rental controllers

This project models the server of a rental management application in Dafny. Owners list
properties, tenants file maintenance requests and record payments, and every user can pass a
know-your-customer (KYC) check by Aadhaar one-time password (OTP).

The centre of the model is the Aadhaar OTP flow:

- **Issuing a challenge** (`POST api/kyc/aadhaar/generate-otp`). A caller who is already
  Aadhaar-verified is refused. Otherwise the verification service checks that the number has
  exactly twelve digits and issues a fresh client id. The controller then stores a Pending
  Aadhaar document row that carries that client id, and marks the caller's KYC as Pending.
- **Verifying a challenge** (`POST api/kyc/aadhaar/verify-otp`). The controller looks up the
  caller's most recently uploaded Aadhaar row with the presented client id. The lookup ignores
  the row's status. The service accepts the one mock OTP `123456` together with any non-blank
  client id. On failure the row becomes Failed. On success the row becomes Verified with the
  mock identity, and the caller becomes Aadhaar-verified with KYC status Verified.
- **Two read-only views.** The status view shows the caller's KYC fields, the last four digits
  of a Verified Aadhaar row, and the first PAN row. The documents view lists the caller's rows
  with masked numbers.

The two transitions are first defined on values: `KycState` holds the caller's KYC fields and
the document table, and `GenerateOtpStep` and `VerifyOtpStep` map a state to a response and a
new state. The controller methods change the database object in place. Each method's
postcondition says that its response and new state are exactly what the step function gives
for the old state. The properties of the flow are proved about the step functions:

- A Verified Aadhaar row implies the user's verified flag, and both transitions keep this.
- The converse does not hold. The flag is never recomputed from the rows. Replaying a verified
  client id with a wrong OTP turns the only Verified row Failed, yet the user stays verified.
- Verification is not one-shot. A challenge that succeeded can be presented again and
  succeeds again.
- Issuing a challenge and then presenting its client id with the mock OTP verifies the new row.

The secondary core covers three controllers:

- **Properties.** Anyone may list all properties. An owner lists, adds, replaces and deletes
  only their own, and the owner id is always forced to the caller.
- **Requests and payments.** The list depends on whether the role is exactly `"Owner"`.
- **Posting.** A new request or payment is stamped with the caller, the time and a fixed
  status.

The database is a class, `Data.ApplicationDb`. It holds one sequence per table in identity
order and one next-identity counter per table. Its invariant `Valid` says that users are keyed
by their id and that each table's ids strictly increase and stay below the next identity value.

Modules follow the program's structure:

| file | modules |
|---|---|
| `Common.dfy` | `Common`: options, responses, .NET whitespace, LINQ-style filtering and lookup |
| `Models.dfy` | `KycDocumentModel`, `UserModel`, `PropertyModel`, `MaintenanceRequestModel`, `PaymentModel` |
| `AadhaarVerification.dfy` | `AadhaarVerification`: the verification service in its mock configuration |
| `Data.dfy` | `Data`: the database context |
| `KycController.dfy` | `KycController` |
| `RentalControllers.dfy` | `PropertiesController`, `RequestsController`, `PaymentsController` |

Time, the current user's id and role (from the authentication claims), and the Guid the
service draws are parameters of the operations.

## Model

| member | source | states |
|---|---|---|
| `KycDocumentModel.NewKycDocument` | Models/KYCDocument.cs:3-32 | A new document row is Pending, uploaded now, and has no image, verification time, identity fields, client id or provider response. |
| `UserModel.NewUserKyc` | Models/User.cs:11-16 | A new user's KYC status is NotSubmitted, both timestamps are absent, and neither Aadhaar nor PAN is verified. |
| `UserModel.User.constructor` | Models/User.cs:3-20 | A constructed user keeps the given id, name, email, password hash and role, and its KYC fields are the new-user defaults. |
| `PropertyModel.NewProperty` | Models/Property.cs:5-23 | A new property is Vacant and untenanted, its texts are empty and its numbers are zero. |
| `MaintenanceRequestModel.NewMaintenanceRequest` | Models/MaintenanceRequest.cs:3-19 | A new request is Pending, of type General and priority Medium, dated now, with empty texts. |
| `PaymentModel.NewPayment` | Models/Payment.cs:5-21 | A new payment is Completed, dated now, and its amount and ids are zero. |
| `AadhaarVerification.GenerateOtp` | Services/AadhaarVerificationService.cs:17-49 | It succeeds exactly when the number is twelve ASCII digits. A failure carries only "Invalid Aadhaar number". A success carries the drawn client id, which is never blank, the sent message and the mock OTP. |
| `AadhaarVerification.GuidIsNotBlank` | Services/AadhaarVerificationService.cs:40 | A Guid rendered as text is never blank. |
| `AadhaarVerification.VerifyOtp` | Services/AadhaarVerificationService.cs:52-86 | It succeeds exactly when the client id is not blank and the OTP is "123456". A blank input gives "Invalid client ID or OTP", and a wrong OTP gives "Invalid OTP". A success carries the fixed mock identity. |
| `AadhaarVerification.VerifyOtpIgnoresClientId` | Services/AadhaarVerificationService.cs:52-86 | Any two non-blank client ids give the same verification outcome for the same OTP, so the id is never checked against those issued. |
| `AadhaarVerification.MaskAadhaar` | Services/AadhaarVerificationService.cs:89-95 | A blank input or one shorter than four characters masks to four stars. Otherwise the result is twelve characters: eight stars, then the input's last four characters. |
| `AadhaarVerification.MaskDependsOnlyOnLastFour` | Services/AadhaarVerificationService.cs:89-95 | Two maskable numbers with the same last four characters mask alike. |
| `AadhaarVerification.AcceptedNumberMasksToLastFour` | Services/AadhaarVerificationService.cs:20-95 | Every number the service accepts masks to eight stars followed by its last four digits. |
| `KycController.MostRecentChallenge` | Controllers/KYCController.cs:86-89 | It returns the position of a row of the caller with type Aadhaar and the client id whose upload time is the latest among all such rows. It returns nothing exactly when no such row exists. |
| `KycController.MostRecentChallengeIgnoresOtherFields` | Controllers/KYCController.cs:86-89 | Rewriting a row without changing its owner, type, client id or upload time does not change the lookup's answer. |
| `KycController.GenerateOtpStep` | Controllers/KYCController.cs:29-73 | A verified caller gets "Aadhaar already verified" and an invalid number gets "Invalid Aadhaar number", both with the state unchanged. The answer is Ok exactly when neither applies. Then exactly one row is appended: a new Pending Aadhaar row with the client id. The caller's status becomes Pending, submitted now. |
| `KycController.VerifiedRow` | Controllers/KYCController.cs:105-111 | The matched row becomes Verified now and carries the provider's name, birth date, gender, address and response. Its id, owner, type, number, client id, image and upload time are kept. |
| `KycController.VerifyOtpStep` | Controllers/KYCController.cs:77-133 | With no matching row the answer is "Invalid client ID or OTP request expired" and the state is unchanged. Otherwise only the matched row changes. The answer is Ok exactly when the client id is not blank and the OTP is the mock one. A failure marks the row Failed, keeps the user, and answers with the service's message. A success marks the row Verified and sets the user Aadhaar-verified, status Verified, verified now. The verified flag never goes back. |
| `KycController.GenerateOtpStepKeepsVerifiedRowImpliesFlag` | Controllers/KYCController.cs:38-64 | Issuing a challenge keeps "a Verified Aadhaar row of the user implies the user's verified flag". |
| `KycController.VerifyOtpStepKeepsVerifiedRowImpliesFlag` | Controllers/KYCController.cs:97-118 | Verifying keeps "a Verified Aadhaar row of the user implies the user's verified flag". |
| `KycController.FlagOutlivesItsVerifiedRow` | Controllers/KYCController.cs:86-118 | Take a user whose first Verified row comes from a successful check. Replaying that client id with a wrong OTP leaves the user verified with no Verified Aadhaar row. |
| `KycController.VerifiedChallengeCanBeReplayed` | Controllers/KYCController.cs:86-118 | After a successful check the same client id still selects the same row, now Verified. Presenting the same OTP again succeeds again. |
| `KycController.IssueThenVerifyWithMockOtp` | Controllers/KYCController.cs:42-118 | Suppose no earlier row carries the issued client id. Issuing a challenge and presenting that client id with the mock OTP then selects the new row. The row becomes Verified with the presented number, and the user becomes verified with status Verified. |
| `KycController.LastFourDigits` | Controllers/KYCController.cs:162 | A number of four or more characters yields its last four, and any shorter number yields "". |
| `KycController.MaskedNumber` | Controllers/KYCController.cs:184 | A number of four or more characters yields eight stars followed by its last four characters, and any shorter number yields four stars. |
| `KycController.MaskedNumberAgreesWithServiceMask` | Controllers/KYCController.cs:184 | The document list's mask equals the service's mask except for all-whitespace numbers of four or more characters. |
| `KycController.OwnedBy` | Controllers/KYCController.cs:178-179 | It keeps exactly the caller's rows. |
| `KycController.FirstOwned` | Controllers/KYCController.cs:147-148 | It returns a row of the caller that satisfies the condition, taken from the table, or nothing exactly when no row of the caller satisfies it. |
| `KycController.StatusView` | Controllers/KYCController.cs:139-169 | It copies the user's five KYC fields. The Aadhaar details are present exactly when the caller has a Verified Aadhaar row, and they are taken from such a row with the number cut to its last four characters. The PAN details are present exactly when the caller has a PAN row, and they carry that row's full number and its status. |
| `KycController.DocumentViews` | Controllers/KYCController.cs:178-190 | The list has one entry per row of the caller. Each entry is the masked view of one of the caller's rows. |
| `KycController.DocumentViewsHaveOneEntryPerRow` | Controllers/KYCController.cs:178-190 | With distinct row ids, every row of the caller appears in the list exactly once. |
| `KycController.GetKycStatus` | Controllers/KYCController.cs:137-170 | An unknown user gets "User not found". Otherwise the answer is Ok with the status view of the stored user and table. |
| `KycController.GetDocuments` | Controllers/KYCController.cs:174-193 | The answer is the caller's document views over the stored table. |
| `KycController.GenerateAadhaarOtp` | Controllers/KYCController.cs:29-73 | An unknown user gets "User not found" and nothing changes. Otherwise the response, the user's new KYC fields and the new table are those of `GenerateOtpStep` on the old state. The new row's id is the next identity value, and the database invariant is kept. |
| `KycController.VerifyAadhaarOtp` | Controllers/KYCController.cs:77-133 | An unknown user gets "User not found" and nothing changes. Otherwise the response, the user's new KYC fields and the new table are those of `VerifyOtpStep` on the old state, and the database invariant is kept. |
| `PropertiesController.PropertyIndex` | Controllers/PropertiesController.cs:65 | It finds a row with the given id, or reports that no row has it. |
| `PropertiesController.GetProperties` | Controllers/PropertiesController.cs:22-28 | Every stored property, in table order. |
| `PropertiesController.GetMyProperties` | Controllers/PropertiesController.cs:32-39 | Exactly the caller's properties, each as many times as it is stored. |
| `PropertiesController.ListedPropertyBelongsToItsOwner` | Controllers/PropertiesController.cs:22-39 | Every listed property is in its owner's list and in no other owner's. |
| `PropertiesController.PostProperty` | Controllers/PropertiesController.cs:43-52 | The body is stored at the end of the table with a fresh id and the caller as owner, whatever owner the body named, and it is returned as Created. |
| `PropertiesController.PutProperty` | Controllers/PropertiesController.cs:57-97 | A route id that differs from the body's id gives BadRequest, an unknown id gives NotFound, and another owner's property gives Forbid. In these cases nothing changes. Otherwise the answer is NoContent and the body replaces that row with the caller as owner. No row's id or owner ever changes. |
| `PropertiesController.DeleteProperty` | Controllers/PropertiesController.cs:102-120 | An unknown id gives NotFound, and another owner's property gives Forbid; in both cases nothing changes. Otherwise the answer is NoContent and exactly that row is removed: the remaining rows are the old rows without that id, and the invariant is kept. |
| `RequestsController.OwnerOf` | Controllers/RequestsController.cs:33 | It gives the owner of the property the request names, or nothing when no property has that id. |
| `RequestsController.RequestIndex` | Controllers/RequestsController.cs:65 | It finds a request with the given id, or reports that none has it. |
| `RequestsController.GetRequests` | Controllers/RequestsController.cs:23-44 | With role exactly "Owner" it lists the requests on properties the caller owns. With any other role, or none, it lists the requests the caller filed. Each listed request appears as many times as it is stored. |
| `RequestsController.LowerCaseOwnerRoleGetsTenantList` | Controllers/RequestsController.cs:28-43 | The role "owner" in lower case gets the same list as "tenant", which holds only the caller's own requests. |
| `RequestsController.PostRequest` | Controllers/RequestsController.cs:48-59 | The body is stored at the end of the table with a fresh id, filed by the caller, dated now and Pending. It is returned as Created. |
| `RequestsController.UpdateRequestStatus` | Controllers/RequestsController.cs:63-75 | An unknown id gives NotFound and nothing changes. Otherwise that request's status becomes the given text, unchecked, and nothing else changes. |
| `PaymentsController.GetPayments` | Controllers/PaymentsController.cs:23-42 | With role exactly "Owner" it lists the payments on properties the caller owns. With any other role, or none, it lists the caller's own payments. Each listed payment appears as many times as it is stored. |
| `PaymentsController.PostPayment` | Controllers/PaymentsController.cs:46-57 | The body is stored at the end of the table with a fresh id, the caller as tenant, dated now and Completed. Its amount and property are kept, and it is returned as Created. |

## Left out

- Null strings are not modelled: every text field is a `string` and every nullable one an
  `Option`. A null Aadhaar number, client id or OTP, which the service treats as blank, has no
  counterpart, and neither has the exception a null document number would raise in the
  documents view.
- `char.IsDigit` accepts every Unicode decimal digit. The model accepts ASCII `0`–`9` only.
- The service's `AadhaarAPI:Enabled` switch guards empty branches, so it cannot change an
  outcome and is not modelled. Logging, including the masked log line, is not modelled either.
- `Guid.NewGuid` is a parameter constrained to the Guid text format. Its uniqueness is not
  modelled, so `IssueThenVerifyWithMockOtp` requires that no earlier row carries the new client id.
- The provider response is stored as a structured value rather than its JSON serialisation.
- Asynchrony, Entity Framework change tracking, `Include` of navigation properties and the two
  separate saves of the issuing step are collapsed into one atomic change per action.
- Foreign keys, cascading deletes and the migration's column defaults are not modelled. The
  migration gives `KYCStatus` an empty default for existing rows; the model uses the class's
  default.
- `PutProperty`'s concurrency-exception branch is not modelled: with one atomic change there is
  no concurrent delete.
- A body that supplies its own non-zero id on insert, and any database-generated id other than
  the next counter value, are not modelled: every insert takes the next identity value.
- Authentication and `[Authorize]` role attributes are not modelled. The caller's id and role
  are parameters, and every action is modelled as if the caller passed the attribute.
- Money amounts are integers of cents. The controllers only copy them, so the decimal type's
  precision is not modelled.
- `KycController.GenerateOtpStep` and `KycController.VerifyOtpStep` read the clock once per
  action. The source reads it twice in each: once for the row's upload or verification time
  and once for the user's submission or verification time. The model therefore makes each
  pair equal, which the source does not promise. No proof depends on that equality.
- `KycController.MatchesChallenge` compares the client id and the document type exactly.
  The database evaluates these query comparisons under its collation, which by default
  ignores letter case and trailing spaces. For example, the issued Guid presented in upper
  case finds its row there but not in the model.
- `KycController.MostRecentChallenge`: among rows with equal upload times the database order
  of `OrderByDescending` is unspecified; the model picks the later row of the table.
- `KycController.StatusView`: the contract says the Aadhaar and PAN details come from some
  matching row of the caller, not which one. The source's `FirstOrDefault` over an unordered
  navigation collection promises no order either. The model takes the first in table order.
- The `Data.ApplicationDb` context class itself is not part of this model's source files. Its
  tables and identity columns are inferred from the models and the controllers' use of them.
