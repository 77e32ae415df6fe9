/** The identity routes: `/verify-self`, `/kyc-status/:address` and
    `/check-eligibility`, as status code and response body. */
module SelfRoutes {
  import opened Base
  import opened Decimal
  import opened Address
  import opened Kyc
  import opened Eligibility
  import opened SelfVerification

  /** The public part of a verified user's data. */
  datatype Profile = Profile(nationality: string, age: nat, verificationType: DocumentType, isHuman: bool, passedOFACCheck: bool)

  /** The JSON bodies the routes send. */
  datatype Body =
    | ValidationFailure(details: seq<string>)   // { success: false, error: 'Validation failed', details }
    | Verified(profile: Profile)                // { success: true, verified: true, data }
    | VerificationRefused(error: string)        // { success: false, verified: false, error }
    | InvalidAddress                            // { success: false, error: 'Invalid Ethereum address' }
    | KycStatus(record: KycRecord)              // { success: true, data }
    | EligibilityReport(check: EligibilityCheck) // { success: true, data }

  datatype Response = Response(status: nat, body: Body)

  /** The body's `success` field. */
  predicate Succeeded(b: Body)
  {
    b.Verified? || b.KycStatus? || b.EligibilityReport?
  }

  /** The field check `notEmpty()`: the value's text form is not empty. */
  predicate NotEmptyField(v: JsValue)
  {
    match v
    case Undefined => false
    case Null => false
    case Str(s) => s != ""
    case _ => true
  }

  /** The messages of the failed field checks of `/verify-self`, in field order. */
  function VerifyFieldErrors(req: ProofRequest): (errors: seq<string>)
    ensures errors == [] <==>
      NotEmptyField(req.attestationId) && NotEmptyField(req.proof) &&
      NotEmptyField(req.publicSignals) && NotEmptyField(req.userContextData)
  {
    (if NotEmptyField(req.attestationId) then [] else ["Attestation ID is required"]) +
    (if NotEmptyField(req.proof) then [] else ["Proof is required"]) +
    (if NotEmptyField(req.publicSignals) then [] else ["Public signals are required"]) +
    (if NotEmptyField(req.userContextData) then [] else ["User context data is required"])
  }

  /** `POST /verify-self` given what the verifier does when called. */
  function VerifySelf(req: ProofRequest, outcome: VerifierOutcome): (resp: Response)
    // a failed field check answers 400 with the failed checks
    ensures VerifyFieldErrors(req) != [] ==> resp == Response(400, ValidationFailure(VerifyFieldErrors(req)))
    // success exactly when the fields pass and the proof verifies
    ensures resp.body.Verified? <==> VerifyFieldErrors(req) == [] && VerifyProof(req, outcome).isValid
    ensures Succeeded(resp.body) <==> resp.status == 200
    // the public fields of the user data are copied unchanged
    ensures resp.body.Verified? ==>
      var u := VerifyProof(req, outcome).userData.value;
      resp.body.profile == Profile(u.nationality, u.age, u.verificationType, u.isHuman, u.passedOFACCheck)
    // a refused proof answers 400 with the service's message, or the fixed one
    ensures VerifyFieldErrors(req) == [] && !VerifyProof(req, outcome).isValid ==>
      resp == Response(400, VerificationRefused(TextOr(VerifyProof(req, outcome).error, VerificationFailed)))
  {
    var errors := VerifyFieldErrors(req);
    if errors != [] then Response(400, ValidationFailure(errors))
    else
      var result := VerifyProof(req, outcome);
      if result.isValid && result.userData.Some? then
        var u := result.userData.value;
        Response(200, Verified(Profile(u.nationality, u.age, u.verificationType, u.isHuman, u.passedOFACCheck)))
      else Response(400, VerificationRefused(TextOr(result.error, VerificationFailed)))
  }

  /** A request failing the field check never reaches the verifier. */
  lemma FieldCheckSkipsVerifier(req: ProofRequest, a: VerifierOutcome, b: VerifierOutcome)
    requires VerifyFieldErrors(req) != []
    ensures VerifySelf(req, a) == VerifySelf(req, b)
  {
  }

  /** The route's field check is weaker than the service's guard: a value
      with a non-empty text form may still be falsy (`false`, `0`); such a
      request passes the field check and is refused by the service. */
  lemma FieldCheckWeakerThanGuard(req: ProofRequest, outcome: VerifierOutcome)
    ensures HasAllParameters(req) ==> VerifyFieldErrors(req) == []
    ensures VerifyFieldErrors(req) == [] && !HasAllParameters(req) ==>
      VerifySelf(req, outcome) == Response(400, VerificationRefused(MissingParameters))
  {
  }

  /** A refusal of `/verify-self` always carries a non-empty message. */
  lemma RefusalHasMessage(req: ProofRequest, outcome: VerifierOutcome)
    requires VerifySelf(req, outcome).body.VerificationRefused?
    ensures VerifySelf(req, outcome).body.error != ""
  {
  }

  /** `GET /kyc-status/:address` given the identity ledger's answers. */
  method KycStatusRoute(address: string, details: string -> Answer<DetailsTuple>) returns (resp: Response)
    ensures !IsAddressFormat(address) ==> resp == Response(400, InvalidAddress)
    ensures IsAddressFormat(address) ==> resp == Response(200, KycStatus(CheckKycStatus(details(address))))
  {
    var ok := MatchAddressPattern(address);
    if !ok {
      return Response(400, InvalidAddress);
    }
    return Response(200, KycStatus(CheckKycStatus(details(address))));
  }

  /** The circle identifier `isInt({ min: 0 })` accepts. */
  predicate IsCircleIdText(s: string)
  {
    IsIntText(s) && IntTextValue(s) >= 0
  }

  /** The messages of the failed field checks of `/check-eligibility`. */
  function EligibilityFieldErrors(userAddress: string, circleId: string): seq<string>
  {
    (if IsEthereumAddress(userAddress) then [] else ["Valid user address is required"]) +
    (if IsCircleIdText(circleId) then [] else ["Valid circle ID is required"])
  }

  /** `POST /check-eligibility` against ledger state `chains`. */
  function CheckEligibility(userAddress: string, circleId: string, chains: Chains): (resp: Response)
    ensures resp.status == 400 <==> !IsEthereumAddress(userAddress) || !IsCircleIdText(circleId)
    ensures resp.status == 400 ==> resp.body == ValidationFailure(EligibilityFieldErrors(userAddress, circleId))
    // otherwise the bridge's record is passed through unchanged
    ensures resp.status != 400 ==>
      resp == Response(200, EligibilityReport(ValidateEligibility(chains, userAddress, IntTextValue(circleId)).check))
    ensures Succeeded(resp.body) <==> resp.status == 200
  {
    var errors := EligibilityFieldErrors(userAddress, circleId);
    if errors != [] then Response(400, ValidationFailure(errors))
    else Response(200, EligibilityReport(ValidateEligibility(chains, userAddress, IntTextValue(circleId)).check))
  }

  /** A circle identifier sent as the decimal text of `n` reaches the bridge
      as `n` itself: the ledgers are asked about circle `n` when the library
      can encode it, and otherwise the answer is "Validation failed" without
      any ledger read. `parseInt` rounds texts of 2^53 and more to a nearby
      double, which is itself at least 2^53 and so refused in the same way. */
  lemma CircleIdTextReadsBack(userAddress: string, n: nat, chains: Chains)
    requires IsEthereumAddress(userAddress)
    ensures CheckEligibility(userAddress, DecimalString(n), chains) ==
      Response(200, EligibilityReport(ValidateEligibility(chains, userAddress, n).check))
    ensures n < MaxSafeInteger ==> ValidateEligibility(chains, userAddress, n).calls[0] == CircleLookup(n)
    ensures n >= MaxSafeInteger ==>
      CheckEligibility(userAddress, DecimalString(n), chains) == Response(200, EligibilityReport(ValidationFailed))
  {
    IntTextOfDecimalString(n);
  }
}
