/** The Aadhaar verification service in its mock configuration: it validates the number,
    issues a correlation id ("client id") for an OTP challenge, accepts one fixed OTP, and
    masks numbers for logging. Every operation is a guard followed by a fixed answer. */
module AadhaarVerification {
  import opened Common

  const MockOtp: string := "123456"

  const InvalidAadhaarMessage: string := "Invalid Aadhaar number"
  const OtpSentMessage: string := "OTP sent to registered mobile number"
  const InvalidRequestMessage: string := "Invalid client ID or OTP"
  const InvalidOtpMessage: string := "Invalid OTP"
  const VerifiedMessage: string := "Aadhaar verified successfully"

  /** The canned identity the mock returns for every accepted OTP. */
  const MockName: string := "Test User"
  const MockDateOfBirth: string := "01-01-1990"
  const MockGender: string := "M"
  const MockAddress: string := "Test Address, Test City, Test State - 123456"

  datatype OtpResponse = OtpResponse(
    success: bool,
    clientId: Option<string>,
    message: string,
    mockOtp: Option<string>)

  datatype VerifyResponse = VerifyResponse(
    success: bool,
    message: string,
    name: Option<string>,
    dateOfBirth: Option<string>,
    gender: Option<string>,
    address: Option<string>)

  predicate IsHexDigit(c: char) {
    '0' <= c <= '9' || 'a' <= c <= 'f'
  }

  /** The text of a fresh Guid in its default format: 32 lower-case hex digits in groups of
      8-4-4-4-12 separated by hyphens. */
  predicate IsGuidString(s: string) {
    && |s| == 36
    && forall i :: 0 <= i < |s| ==>
         if i == 8 || i == 13 || i == 18 || i == 23 then s[i] == '-' else IsHexDigit(s[i])
  }

  /** An Aadhaar number the service accepts: exactly twelve decimal digits. */
  predicate IsAadhaarNumber(s: string) {
    |s| == 12 && AllDigits(s)
  }

  /** A client id issued by the service is never blank. */
  lemma GuidIsNotBlank(s: string)
    requires IsGuidString(s)
    ensures !IsBlank(s)
  {
    NotBlankWitness(s, 0);
  }

  /** Starts an OTP challenge. `newClientId` is the Guid the service would draw; the
      configuration switch for a live provider guards an empty branch and is not modelled. */
  function GenerateOtp(aadhaarNumber: string, newClientId: string): (r: OtpResponse)
    requires IsGuidString(newClientId)
    ensures r.success <==> IsAadhaarNumber(aadhaarNumber)
    ensures !r.success ==> r == OtpResponse(false, None, InvalidAadhaarMessage, None)
    ensures r.success ==> r.clientId == Some(newClientId) && !IsBlank(newClientId)
    ensures r.success ==> r.message == OtpSentMessage && r.mockOtp == Some(MockOtp)
  {
    assert IsAadhaarNumber(aadhaarNumber) ==> !IsBlank(aadhaarNumber) by {
      if IsAadhaarNumber(aadhaarNumber) { NotBlankWitness(aadhaarNumber, 0); }
    }
    if IsBlank(aadhaarNumber) || |aadhaarNumber| != 12 || !AllDigits(aadhaarNumber) then
      OtpResponse(false, None, InvalidAadhaarMessage, None)
    else
      GuidIsNotBlank(newClientId);
      OtpResponse(true, Some(newClientId), OtpSentMessage, Some(MockOtp))
  }

  /** Completes an OTP challenge. The client id is only checked for blankness, never against
      the ids the service issued. */
  function VerifyOtp(clientId: string, otp: string): (r: VerifyResponse)
    ensures r.success <==> !IsBlank(clientId) && otp == MockOtp
    ensures IsBlank(clientId) || IsBlank(otp) ==> r == VerifyResponse(false, InvalidRequestMessage, None, None, None, None)
    ensures !IsBlank(clientId) && !IsBlank(otp) && otp != MockOtp ==> r == VerifyResponse(false, InvalidOtpMessage, None, None, None, None)
    ensures r.success ==> r == VerifyResponse(true, VerifiedMessage, Some(MockName), Some(MockDateOfBirth), Some(MockGender), Some(MockAddress))
  {
    assert !IsBlank(MockOtp) by { NotBlankWitness(MockOtp, 0); }
    if IsBlank(clientId) || IsBlank(otp) then
      VerifyResponse(false, InvalidRequestMessage, None, None, None, None)
    else if otp != MockOtp then
      VerifyResponse(false, InvalidOtpMessage, None, None, None, None)
    else
      VerifyResponse(true, VerifiedMessage, Some(MockName), Some(MockDateOfBirth), Some(MockGender), Some(MockAddress))
  }

  /** The outcome of an OTP check does not depend on which non-blank client id is presented. */
  lemma VerifyOtpIgnoresClientId(clientId1: string, clientId2: string, otp: string)
    requires !IsBlank(clientId1) && !IsBlank(clientId2)
    ensures VerifyOtp(clientId1, otp) == VerifyOtp(clientId2, otp)
  {
  }

  /** Masks an Aadhaar number for logging, keeping the last four characters only. */
  function MaskAadhaar(aadhaar: string): (r: string)
    ensures IsBlank(aadhaar) || |aadhaar| < 4 ==> r == "****"
    ensures !IsBlank(aadhaar) && |aadhaar| >= 4 ==>
      |r| == 12 && r[..8] == "********" && r[8..] == aadhaar[|aadhaar| - 4..]
  {
    if IsBlank(aadhaar) || |aadhaar| < 4 then "****"
    else "********" + aadhaar[|aadhaar| - 4..]
  }

  /** Nothing but the last four characters (and whether the number is blank) reaches the
      masked text: two maskable numbers that end alike mask alike. */
  lemma MaskDependsOnlyOnLastFour(aadhaar1: string, aadhaar2: string)
    requires !IsBlank(aadhaar1) && |aadhaar1| >= 4
    requires !IsBlank(aadhaar2) && |aadhaar2| >= 4
    requires aadhaar1[|aadhaar1| - 4..] == aadhaar2[|aadhaar2| - 4..]
    ensures MaskAadhaar(aadhaar1) == MaskAadhaar(aadhaar2)
  {
  }

  /** Every number the service accepts masks to eight stars followed by its last four digits. */
  lemma {:induction false} AcceptedNumberMasksToLastFour(aadhaar: string)
    requires IsAadhaarNumber(aadhaar)
    ensures MaskAadhaar(aadhaar) == "********" + aadhaar[8..]
  {
    NotBlankWitness(aadhaar, 0);
  }
}
