/** `SelfVerificationService.verifyProof`: the guard on its arguments and the
    interpretation of the identity verifier's answer. */
module SelfVerification {
  import opened Base

  /** A request-body value, as far as truthiness and text form matter. Arrays
      and objects are `Composite`. */
  datatype JsValue = Undefined | Null | Bool(b: bool) | Num(n: int) | Str(s: string) | Composite

  /** JavaScript truthiness (NaN is not modelled). */
  predicate Truthy(v: JsValue)
  {
    match v
    case Undefined => false
    case Null => false
    case Bool(b) => b
    case Num(n) => n != 0
    case Str(s) => s != ""
    case Composite => true
  }

  datatype ProofRequest = ProofRequest(attestationId: JsValue, proof: JsValue, publicSignals: JsValue, userContextData: JsValue)

  /** The fields the verifier discloses; `None` when a field is absent. */
  datatype Disclosure = Disclosure(nationality: Option<string>, olderThan: Option<nat>, userIdentifier: Option<string>)

  datatype ValidityDetails = ValidityDetails(isValid: bool, invalidDetails: Option<string>)

  /** The verifier's result object; both parts may be missing. */
  datatype VerifierReply = VerifierReply(isValidDetails: Option<ValidityDetails>, discloseOutput: Option<Disclosure>)

  /** What the verifier call did: returned a (possibly missing) result, or
      raised an error with a message. */
  datatype VerifierOutcome = Returned(reply: Option<VerifierReply>) | Threw(message: string)

  datatype DocumentType = Passport | Aadhaar

  datatype UserData = UserData(
    nationality: string,
    age: nat,
    isHuman: bool,
    passedOFACCheck: bool,
    verificationType: DocumentType,
    userIdentifier: string,
    attestationId: JsValue)

  datatype VerificationResult = VerificationResult(isValid: bool, userData: Option<UserData>, error: Option<string>)

  const MissingParameters: string := "Missing required parameters"
  const VerificationFailed: string := "Verification failed"
  const DefaultAge: nat := 18

  /** The four arguments are all present (truthy). */
  predicate HasAllParameters(req: ProofRequest)
  {
    Truthy(req.attestationId) && Truthy(req.proof) && Truthy(req.publicSignals) && Truthy(req.userContextData)
  }

  /** `a || fallback` on an optional text. */
  function TextOr(a: Option<string>, fallback: string): string
  {
    if a.Some? && a.value != "" then a.value else fallback
  }

  /** The verifier accepted the proof and disclosed its fields. */
  predicate Accepted(outcome: VerifierOutcome)
  {
    && outcome.Returned? && outcome.reply.Some?
    && outcome.reply.value.isValidDetails.Some? && outcome.reply.value.isValidDetails.value.isValid
    && outcome.reply.value.discloseOutput.Some?
  }

  /** The attestation identifier "3" is an Aadhaar card; anything else a passport. */
  function DocumentTypeOf(attestationId: JsValue): (t: DocumentType)
    ensures t == Aadhaar <==> attestationId == Str("3")
  {
    if attestationId == Str("3") then Aadhaar else Passport
  }

  /** `verifyProof(...)` given what the verifier call does when made. */
  function VerifyProof(req: ProofRequest, outcome: VerifierOutcome): (r: VerificationResult)
    // a missing argument is refused with a fixed message
    ensures !HasAllParameters(req) ==> r == VerificationResult(false, None, Some(MissingParameters))
    // valid exactly when the verifier accepted and disclosed
    ensures r.isValid <==> HasAllParameters(req) && Accepted(outcome)
    // the two shapes: user data without error, or error without user data
    ensures r.isValid <==> r.userData.Some?
    ensures r.isValid <==> r.error.None?
    // the success record: defaults for absent fields, fixed flags, echoed identifier
    ensures r.isValid ==>
      var disclosed := outcome.reply.value.discloseOutput.value;
      && r.userData.value.nationality == TextOr(disclosed.nationality, "Unknown")
      && r.userData.value.age == (if disclosed.olderThan.Some? && disclosed.olderThan.value != 0
                                  then disclosed.olderThan.value else DefaultAge)
      && r.userData.value.userIdentifier == TextOr(disclosed.userIdentifier, "unknown")
      && r.userData.value.isHuman && r.userData.value.passedOFACCheck
      && r.userData.value.attestationId == req.attestationId
      && (r.userData.value.verificationType == Aadhaar <==> req.attestationId == Str("3"))
    // a raised error becomes its message
    ensures HasAllParameters(req) && outcome.Threw? ==> r == VerificationResult(false, None, Some(outcome.message))
    // a refusal reports the verifier's details, or the fixed message
    ensures HasAllParameters(req) && outcome.Returned? && !Accepted(outcome) ==>
      r.error == Some(TextOr(
        if outcome.reply.Some? && outcome.reply.value.isValidDetails.Some?
        then outcome.reply.value.isValidDetails.value.invalidDetails else None,
        VerificationFailed))
  {
    if !HasAllParameters(req) then VerificationResult(false, None, Some(MissingParameters))
    else match outcome
      case Threw(message) => VerificationResult(false, None, Some(message))
      case Returned(reply) =>
        if Accepted(outcome) then
          var disclosed := reply.value.discloseOutput.value;
          var age := if disclosed.olderThan.Some? && disclosed.olderThan.value != 0
                     then disclosed.olderThan.value else DefaultAge;
          var data := UserData(
            TextOr(disclosed.nationality, "Unknown"), age, true, true,
            DocumentTypeOf(req.attestationId), TextOr(disclosed.userIdentifier, "unknown"),
            req.attestationId);
          VerificationResult(true, Some(data), None)
        else
          var details := if reply.Some? && reply.value.isValidDetails.Some?
                         then reply.value.isValidDetails.value.invalidDetails else None;
          VerificationResult(false, None, Some(TextOr(details, VerificationFailed)))
  }

  /** A request missing an argument never consults the verifier: its result
      is the same whatever the verifier would have done. */
  lemma MissingParametersSkipVerifier(req: ProofRequest, a: VerifierOutcome, b: VerifierOutcome)
    requires !HasAllParameters(req)
    ensures VerifyProof(req, a) == VerifyProof(req, b)
  {
  }

  /** Every failure carries a message, and only a raised error's message can
      be empty: the fixed fallbacks and the verifier's own details never are. */
  lemma FailureMessages(req: ProofRequest, outcome: VerifierOutcome)
    requires !VerifyProof(req, outcome).isValid
    ensures VerifyProof(req, outcome).error.Some?
    ensures VerifyProof(req, outcome).error.value == "" ==> HasAllParameters(req) && outcome == Threw("")
  {
  }
}
