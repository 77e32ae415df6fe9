/** The eligibility decision of `validateROSCAEligibility`: one circle read on
    the circle ledger, one KYC read and one predicate call on the identity
    ledger, composed so that every failure ends in "not eligible". */
module Eligibility {
  import opened Base
  import opened Kyc

  /** The parameters of a circle the decision reads. */
  datatype CircleParams = CircleParams(country: string, minAge: nat, maxAge: nat)

  /** The circle ledger's answer to `getCircleInfo`; `params` is absent when
      the returned structure has no parameter block. */
  datatype CircleInfo = CircleInfo(params: Option<CircleParams>)

  /** The answers the two ledgers give, one function per contract call. */
  datatype Chains = Chains(
    circleInfo: int -> Answer<CircleInfo>,
    verificationDetails: string -> Answer<DetailsTuple>,
    eligibleForRosca: (string, string, nat, nat) -> Answer<(bool, string)>)

  /** One contract call the decision made, with its arguments. */
  datatype Call =
    | CircleLookup(circleId: int)
    | KycLookup(user: string)
    | PredicateCall(user: string, country: string, minAge: nat, maxAge: nat)

  /** The snapshot attached to a positive decision; `verifiedAt` is kept as
      the raw seconds value the date is built from. */
  datatype UserInfo = UserInfo(nationality: string, age: nat, verifiedAt: nat)

  datatype EligibilityCheck = EligibilityCheck(eligible: bool, reason: string, userInfo: Option<UserInfo>)

  /** A decision together with the calls made to reach it, in order. */
  datatype Decision = Decision(check: EligibilityCheck, calls: seq<Call>)

  const ValidationFailed: EligibilityCheck := EligibilityCheck(false, "Validation failed", None)
  const KycRequired: EligibilityCheck := EligibilityCheck(false, "KYC verification required", None)

  /** Largest seconds value whose millisecond date `toISOString` can format
      (8.64e15 ms); a later date raises a RangeError. */
  const MaxDateSeconds: nat := 8_640_000_000_000

  /** A circle id the contract library can encode as the `uint256` argument
      of `getCircleInfo`: converting a JavaScript number refuses any value of
      magnitude 2^53 - 1 or more, and the encoder refuses a negative one. The
      rejection happens before the request is sent. */
  predicate EncodableCircleId(circleId: int)
  {
    0 <= circleId < MaxSafeInteger
  }

  /** The answer `chains` gives to `c`, lifted to the one type all three
      calls share so that two ledger states can be compared call by call. */
  predicate SameAnswer(a: Chains, b: Chains, c: Call)
  {
    match c
    case CircleLookup(id) => a.circleInfo(id) == b.circleInfo(id)
    case KycLookup(u) => a.verificationDetails(u) == b.verificationDetails(u)
    case PredicateCall(u, country, lo, hi) =>
      a.eligibleForRosca(u, country, lo, hi) == b.eligibleForRosca(u, country, lo, hi)
  }

  /** `validateROSCAEligibility(user, circleId)` against ledger state `chains`. */
  function ValidateEligibility(chains: Chains, user: string, circleId: int): (d: Decision)
    // an id the library cannot encode fails before any ledger is asked
    ensures !EncodableCircleId(circleId) ==> d == Decision(ValidationFailed, [])
    // otherwise the circle is read first, and only calls about this user and circle follow
    ensures EncodableCircleId(circleId) ==> |d.calls| >= 1 && d.calls[0] == CircleLookup(circleId)
    ensures forall i :: 1 <= i < |d.calls| ==> !d.calls[i].CircleLookup? && d.calls[i].user == user
    // a failed circle read ends the decision before the identity ledger is asked
    ensures EncodableCircleId(circleId) && chains.circleInfo(circleId).Err? ==> d == Decision(ValidationFailed, [CircleLookup(circleId)])
    // an unverified user is refused without asking the predicate
    ensures EncodableCircleId(circleId) && chains.circleInfo(circleId).Ok? && !CheckKycStatus(chains.verificationDetails(user)).isVerified ==>
      d == Decision(KycRequired, [CircleLookup(circleId), KycLookup(user)])
    // a verified user on a circle answer without a parameter block fails on reading its country
    ensures (EncodableCircleId(circleId) && chains.circleInfo(circleId).Ok? &&
             chains.circleInfo(circleId).value.params.None? &&
             CheckKycStatus(chains.verificationDetails(user)).isVerified) ==>
      d == Decision(ValidationFailed, [CircleLookup(circleId), KycLookup(user)])
    // the predicate is asked at most once, with the circle's own country and ages
    ensures forall i :: 0 <= i < |d.calls| && d.calls[i].PredicateCall? ==>
      i == 2 == |d.calls| - 1 && EncodableCircleId(circleId) &&
      chains.circleInfo(circleId).Ok? &&
      chains.circleInfo(circleId).value.params ==
        Some(CircleParams(d.calls[i].country, d.calls[i].minAge, d.calls[i].maxAge))
    // the user snapshot is present exactly on a positive decision
    ensures d.check.userInfo.Some? <==> d.check.eligible
  {
    if !EncodableCircleId(circleId) then Decision(ValidationFailed, [])
    else
      var lookup := [CircleLookup(circleId)];
      match chains.circleInfo(circleId)
      case Err(_) => Decision(ValidationFailed, lookup)
      case Ok(info) =>
        var kyc := CheckKycStatus(chains.verificationDetails(user));
        var read := lookup + [KycLookup(user)];
        if !kyc.isVerified then Decision(KycRequired, read)
        else match info.params
          // reading the country of a missing parameter block raises a TypeError
          case None => Decision(ValidationFailed, read)
          case Some(p) =>
            var asked := read + [PredicateCall(user, p.country, p.minAge, p.maxAge)];
            match chains.eligibleForRosca(user, p.country, p.minAge, p.maxAge)
            case Err(_) => Decision(ValidationFailed, asked)
            case Ok((eligible, reason)) =>
              if !eligible then Decision(EligibilityCheck(false, reason, None), asked)
              else if kyc.verificationTimestamp > MaxDateSeconds then Decision(ValidationFailed, asked)
              else
                var info := UserInfo(kyc.nationality, kyc.ageAtVerification, kyc.verificationTimestamp);
                Decision(EligibilityCheck(true, reason, Some(info)), asked)
  }

  /** Every circle answer either failed or came without a parameter block, as
      with a circle-ledger interface whose `getCircleInfo` returns a tuple with
      no declared fields. */
  ghost predicate NoCircleParams(chains: Chains)
  {
    forall id :: chains.circleInfo(id).Err? || chains.circleInfo(id).value.params.None?
  }

  /** Without circle parameters nobody is eligible and the identity ledger's
      predicate is never asked, whatever the user and circle. */
  lemma NoCircleParamsNoneEligible(chains: Chains, user: string, circleId: int)
    requires NoCircleParams(chains)
    ensures !ValidateEligibility(chains, user, circleId).check.eligible
    ensures forall i :: 0 <= i < |ValidateEligibility(chains, user, circleId).calls| ==>
      !ValidateEligibility(chains, user, circleId).calls[i].PredicateCall?
  {
    assert chains.circleInfo(circleId).Err? || chains.circleInfo(circleId).value.params.None?;
  }

  /** Once the predicate has been asked, its verdict is adopted verbatim: a
      negative verdict keeps its reason, and a positive one keeps its reason
      and carries the KYC nationality and age, unless the verification date
      cannot be formatted. */
  lemma PredicateVerdictAdopted(chains: Chains, user: string, circleId: int)
    requires EncodableCircleId(circleId)
    requires chains.circleInfo(circleId).Ok? && chains.circleInfo(circleId).value.params.Some?
    requires CheckKycStatus(chains.verificationDetails(user)).isVerified
    ensures
      var p := chains.circleInfo(circleId).value.params.value;
      var kyc := CheckKycStatus(chains.verificationDetails(user));
      var d := ValidateEligibility(chains, user, circleId);
      && d.calls == [CircleLookup(circleId), KycLookup(user), PredicateCall(user, p.country, p.minAge, p.maxAge)]
      && match chains.eligibleForRosca(user, p.country, p.minAge, p.maxAge)
         case Err(_) => d.check == ValidationFailed
         case Ok((eligible, reason)) =>
           if !eligible then d.check == EligibilityCheck(false, reason, None)
           else if kyc.verificationTimestamp > MaxDateSeconds then d.check == ValidationFailed
           else d.check.eligible && d.check.reason == reason &&
                d.check.userInfo == Some(UserInfo(kyc.nationality, kyc.ageAtVerification, kyc.verificationTimestamp))
  {
  }

  /** A positive decision was earned: the circle exists with parameters, the
      user's KYC record is verified, and the predicate said yes when asked
      about exactly this circle's country and ages. */
  lemma EligibleOnlyWhenPredicateAgrees(chains: Chains, user: string, circleId: int)
    requires ValidateEligibility(chains, user, circleId).check.eligible
    ensures EncodableCircleId(circleId)
    ensures chains.circleInfo(circleId).Ok? && chains.circleInfo(circleId).value.params.Some?
    ensures CheckKycStatus(chains.verificationDetails(user)).isVerified
    ensures
      var p := chains.circleInfo(circleId).value.params.value;
      chains.eligibleForRosca(user, p.country, p.minAge, p.maxAge).Ok? &&
      chains.eligibleForRosca(user, p.country, p.minAge, p.maxAge).value.0
  {
  }

  /** The trace is complete: two ledger states that give the same answers to
      the calls recorded for one of them lead to the same decision, so a call
      missing from the trace had no influence. */
  lemma {:induction false} TraceDeterminesDecision(a: Chains, b: Chains, user: string, circleId: int)
    requires forall c :: c in ValidateEligibility(a, user, circleId).calls ==> SameAnswer(a, b, c)
    ensures ValidateEligibility(a, user, circleId) == ValidateEligibility(b, user, circleId)
  {
    var d := ValidateEligibility(a, user, circleId);
    if !EncodableCircleId(circleId) {
      return;
    }
    assert SameAnswer(a, b, d.calls[0]);
    if a.circleInfo(circleId).Ok? {
      assert SameAnswer(a, b, d.calls[1]);
      var kyc := CheckKycStatus(a.verificationDetails(user));
      if kyc.isVerified && a.circleInfo(circleId).value.params.Some? {
        assert SameAnswer(a, b, d.calls[2]);
      }
    }
  }
}
