/** Normalisation of raw ledger logs into the events the bridge hands to its
    subscribers (`startKYCEventMonitoring`, `startROSCAEventMonitoring`). */
module Events {
  import opened Base
  import opened Decimal

  /** A log as the contract library delivers it; ledger integers unbounded. */
  datatype RawLog =
    | UserVerifiedLog(userAddress: string, userIdentifier: string, nationality: string,
                      age: nat, timestamp: nat, txHash: string, blockNumber: nat)
    | CircleCreatedLog(circleId: nat, creator: string, circleAddress: string, monthlyAmount: nat,
                       country: string, maxMembers: nat, txHash: string, blockNumber: nat)
    | CircleJoinedLog(circleId: nat, member: string, txHash: string, blockNumber: nat)

  /** A type string other than the three the bridge produces. */
  type OtherTag = t: string | t != "USER_VERIFIED" && t != "CIRCLE_CREATED" && t != "CIRCLE_JOINED"
    witness ""

  /** A normalised event. `Unrecognised` stands for any record whose `type`
      is none of the three; the bridge itself never produces one. */
  datatype ChainEvent =
    | UserVerified(userAddress: string, userIdentifier: string, nationality: string,
                   age: nat, timestamp: nat, txHash: string, blockNumber: nat)
    | CircleCreated(circleId: nat, creator: string, circleAddress: string, monthlyAmount: string,
                    country: string, maxMembers: nat, txHash: string, blockNumber: nat)
    | CircleJoined(circleId: nat, member: string, txHash: string, blockNumber: nat)
    | Unrecognised(tag: OtherTag)

  /** The event's `type` field. */
  function TypeTag(e: ChainEvent): string
  {
    match e
    case UserVerified(_, _, _, _, _, _, _) => "USER_VERIFIED"
    case CircleCreated(_, _, _, _, _, _, _, _) => "CIRCLE_CREATED"
    case CircleJoined(_, _, _, _) => "CIRCLE_JOINED"
    case Unrecognised(t) => t
  }

  /** The ledger a log comes from: the identity ledger carries only
      `UserVerified`, the circle ledger the two circle events. */
  predicate FromIdentityLedger(log: RawLog)
  {
    log.UserVerifiedLog?
  }

  /** The listener's conversion of a log. `None` where a `toNumber()` call
      raises, in which case the subscriber callback is never reached. */
  function Normalise(log: RawLog): (r: Option<ChainEvent>)
    // conversion fails exactly when a converted number is too large
    ensures r.None? <==> match log
      case UserVerifiedLog(_, _, _, age, ts, _, _) => age > MaxSafeInteger || ts > MaxSafeInteger
      case CircleCreatedLog(id, _, _, _, _, members, _, _) => id > MaxSafeInteger || members > MaxSafeInteger
      case CircleJoinedLog(id, _, _, _) => id > MaxSafeInteger
    // an event's kind follows its log's kind, never an unrecognised one
    ensures r.Some? ==> !r.value.Unrecognised?
    ensures r.Some? ==> (r.value.UserVerified? <==> log.UserVerifiedLog?)
    ensures r.Some? ==> (r.value.CircleCreated? <==> log.CircleCreatedLog?)
    ensures r.Some? ==> (r.value.CircleJoined? <==> log.CircleJoinedLog?)
    // the amount is carried as canonical decimal text denoting the same value
    ensures r.Some? && log.CircleCreatedLog? ==>
      IsCanonical(r.value.monthlyAmount) && DigitsValue(r.value.monthlyAmount) == log.monthlyAmount
  {
    match log
    case UserVerifiedLog(user, identifier, nationality, age, ts, tx, block) =>
      (match (ToNumber(age), ToNumber(ts))
       case (Some(a), Some(t)) => Some(UserVerified(user, identifier, nationality, a, t, tx, block))
       case _ => None)
    case CircleCreatedLog(id, creator, circle, amount, country, members, tx, block) =>
      DigitsValueOfDecimalString(amount);
      (match (ToNumber(id), ToNumber(members))
       case (Some(i), Some(m)) => Some(CircleCreated(i, creator, circle, DecimalString(amount), country, m, tx, block))
       case _ => None)
    case CircleJoinedLog(id, member, tx, block) =>
      (match ToNumber(id)
       case Some(i) => Some(CircleJoined(i, member, tx, block))
       case None => None)
  }

  /** Normalisation keeps every field of a log whose numbers convert: the log
      can be rebuilt from its event. */
  function Denormalise(e: ChainEvent): Option<RawLog>
  {
    match e
    case UserVerified(user, identifier, nationality, age, ts, tx, block) =>
      Some(UserVerifiedLog(user, identifier, nationality, age, ts, tx, block))
    case CircleCreated(id, creator, circle, amount, country, members, tx, block) =>
      if IsCanonical(amount) then
        Some(CircleCreatedLog(id, creator, circle, DigitsValue(amount), country, members, tx, block))
      else None
    case CircleJoined(id, member, tx, block) => Some(CircleJoinedLog(id, member, tx, block))
    case Unrecognised(_) => None
  }

  lemma NormaliseRoundTrip(log: RawLog)
    requires Normalise(log).Some?
    ensures Denormalise(Normalise(log).value) == Some(log)
  {
    if log.CircleCreatedLog? {
      DigitsValueOfDecimalString(log.monthlyAmount);
    }
  }
}
