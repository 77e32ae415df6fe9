/** The bridge's read of a user's KYC record on the identity ledger
    (`checkKYCStatus`), which fails closed to "not verified". */
module Kyc {
  import opened Base

  /** The tuple `getUserVerificationDetails` returns, in its positional
      order; its two uint256 fields are unbounded here. */
  datatype DetailsTuple = DetailsTuple(
    isVerified: bool,
    nationality: string,
    ageAtVerification: nat,
    verificationTimestamp: nat,
    isHuman: bool,
    passedOFACCheck: bool)

  /** The record the bridge hands to its callers; both numbers are
      JavaScript numbers. */
  datatype KycRecord = KycRecord(
    isVerified: bool,
    nationality: string,
    ageAtVerification: nat,
    verificationTimestamp: nat,
    isHuman: bool,
    passedOFACCheck: bool)

  /** The fully defaulted record returned whenever the read fails. */
  const NotVerified: KycRecord := KycRecord(false, "", 0, 0, false, false)

  /** The tuple's numbers survive conversion to JavaScript numbers. */
  predicate Converts(t: DetailsTuple)
  {
    ToNumber(t.ageAtVerification).Some? && ToNumber(t.verificationTimestamp).Some?
  }

  /** Interprets the ledger's answer for one address. A failed call and a
      number too large to convert both yield `NotVerified`; nothing is raised. */
  function CheckKycStatus(answer: Answer<DetailsTuple>): (r: KycRecord)
    ensures answer.Err? ==> r == NotVerified
    ensures answer.Ok? && !Converts(answer.value) ==> r == NotVerified
    ensures answer.Ok? && Converts(answer.value) ==>
      && r.isVerified == answer.value.isVerified
      && r.nationality == answer.value.nationality
      && r.ageAtVerification == answer.value.ageAtVerification
      && r.verificationTimestamp == answer.value.verificationTimestamp
      && r.isHuman == answer.value.isHuman
      && r.passedOFACCheck == answer.value.passedOFACCheck
    ensures r.ageAtVerification <= MaxSafeInteger && r.verificationTimestamp <= MaxSafeInteger
    ensures r.isVerified ==> answer.Ok? && answer.value.isVerified && Converts(answer.value)
  {
    match answer
    case Err(_) => NotVerified
    case Ok(t) =>
      match (ToNumber(t.ageAtVerification), ToNumber(t.verificationTimestamp))
      case (Some(age), Some(ts)) =>
        KycRecord(t.isVerified, t.nationality, age, ts, t.isHuman, t.passedOFACCheck)
      case _ => NotVerified
  }
}
