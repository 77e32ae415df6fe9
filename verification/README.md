# ROSCA-Guard cross-chain eligibility layer in Dafny

This project models the backend layer of ROSCA-Guard that joins two ledgers:
an identity ledger holding KYC attestations and a circle ledger holding
rotating-savings circles (ROSCAs). It covers:

- the bridge's KYC read, which fails closed;
- the eligibility decision, which combines a circle read, a KYC read and the
  identity ledger's own eligibility predicate, and records the calls it made;
- batch eligibility in slices of ten, each result stored under its address
  in input order (the key order of the resulting map is not modelled);
- the all-or-nothing health check;
- normalisation of ledger logs and the event processor's dispatch, error
  containment and start/stop flag;
- the interpretation of the identity verifier's answer in `verifyProof`;
- the shaping of the `/verify-self`, `/kyc-status/:address` and
  `/check-eligibility` responses.

Every ledger call is an abstract answer (`Answer<T>`: `Ok(value)` or
`Err(message)`), passed in as a value or as a function from call arguments to
answers (`Eligibility.Chains`). The verifier call is an abstract outcome
(`SelfVerification.VerifierOutcome`: `Returned(reply)` or `Threw(message)`). The clock is a parameter. So is
the order in which two failing probes reject. Whether emitting a notification
raises is a parameter too (`throws`): one of its listeners raises, or, for an
'error' notification, none is attached. In a batch, each check reads its own ledger state
(`views(i)`), because the checks happen at different times; this is what
makes last-write-wins observable.

Modules, one per file: `Base`, `Decimal`, `Address`, `Kyc`, `Eligibility`,
`Batch`, `Health`, `Events`, `Processor`, `SelfVerification`, `SelfRoutes`.

Some behaviour of the code worth knowing up front:

- A failed circle read gives the reason "Validation failed"; there is no
  separate reason for a missing circle.
- The bridge does not check the address or circle id before its ledger calls.
  Only the contract library's argument encoding refuses a circle id it cannot
  represent, and that refusal also ends in "Validation failed".
- Batch slices follow one another with no delay.
- The health check reports both ledgers together and does not probe the
  proof verifier.
- `getPlatformStats` rethrows any failure.
- The contract interfaces are built from function declarations only, so
  `start()` cannot subscribe to any event, and `getCircleInfo` returns a tuple
  with no declared fields, so no circle answer carries parameters and nobody
  is found eligible (see "## Findings").

## Model

| member | source | states |
|---|---|---|
| Kyc.CheckKycStatus | backend/src/services/CrossChainBridge.ts:60-84 | A failed call, or a number too large to convert, yields the all-default unverified record. Otherwise the tuple is copied field by field. The result always holds safe integers, and a verified result comes from a verified tuple. |
| Eligibility.ValidateEligibility | backend/src/services/CrossChainBridge.ts:87-130 | A circle id that is negative or at least 2^53-1 cannot be encoded and gives "Validation failed" before any call. Otherwise the circle is read first. A failed circle read gives "Validation failed" with no further call. An unverified user gives "KYC verification required" without asking the predicate. A verified user on a circle answer without parameters gives "Validation failed" after the KYC read. The predicate is asked at most once, with the circle's country, minAge and maxAge. userInfo is present iff eligible. |
| Eligibility.NoCircleParamsNoneEligible | backend/src/services/CrossChainBridge.ts:93-128 | When no circle answer carries parameters, no decision is eligible and the identity ledger's predicate is never asked. |
| Eligibility.PredicateVerdictAdopted | backend/src/services/CrossChainBridge.ts:105-121 | Once the predicate is asked, its eligible flag and reason are adopted verbatim. userInfo carries the KYC nationality, age and raw verification seconds. A date too large to format, or a failed predicate call, gives "Validation failed". |
| Eligibility.EligibleOnlyWhenPredicateAgrees | backend/src/services/CrossChainBridge.ts:93-121 | A positive decision implies the circle id was encodable, the circle exists with parameters, the KYC record is verified, and the predicate said yes for exactly that circle's country and ages. |
| Eligibility.TraceDeterminesDecision | backend/src/services/CrossChainBridge.ts:91-129 | Two ledger states that answer the recorded calls alike give the same decision, so calls absent from the trace had no influence. |
| Batch.BatchCheckEligibility | backend/src/services/CrossChainBridge.ts:215-238 | ceil(n/10) rounds; round k starts at 10k and holds 1 to 10 positions. The rounds check every input position exactly once, in input order. The result keys are exactly the input addresses (empty input, empty map). A repeated address keeps the result of its last occurrence. |
| Batch.SlicesCover | backend/src/services/CrossChainBridge.ts:222-224 | The loop's slices number ceil(n/10), are contiguous and hold 1 to 10 positions each. Position p lies in slice p/10. |
| Batch.PositionsOfSlices | backend/src/services/CrossChainBridge.ts:223-224 | The slices' positions, concatenated, are exactly 0..n-1 in order, so each position is checked exactly once. |
| Batch.SettledAfterRounds | backend/src/services/CrossChainBridge.ts:223-235 | After k rounds the map holds exactly the first min(10k, n) positions, set in input order, so each slice is settled before the next starts. |
| Batch.BatchMap | backend/src/services/CrossChainBridge.ts:219-237 | The slice loop's map has the input keys and no others, each holding the value of its last occurrence. |
| Batch.SetInOrderLastWins | backend/src/services/CrossChainBridge.ts:232-234 | Map.set in input order: a key not repeated later keeps the value stored with it. |
| Batch.SetInOrderKeys | backend/src/services/CrossChainBridge.ts:232-234 | Map.set in input order adds exactly the stored addresses to the keys. |
| Health.HealthCheck | backend/src/services/CrossChainBridge.ts:241-269 | Both ledgers are connected together or neither. Connected entries carry their own height and contract address. Disconnected entries share one message, taken from a failing probe. A single failure decides the message. |
| Health.TimingMattersOnlyWhenBothFail | backend/src/services/CrossChainBridge.ts:241-269 | With at least one probe answering, the report does not depend on which probe settles first. When both fail with different messages, it does. |
| Events.Normalise | backend/src/services/CrossChainBridge.ts:136-179 | Normalisation fails exactly when a converted number exceeds 2^53-1. The event kind follows the log kind. The amount becomes canonical decimal text of the same value. |
| Events.NormaliseRoundTrip | backend/src/services/CrossChainBridge.ts:136-179 | A normalised event keeps every field of its log: the log can be rebuilt from it. |
| Decimal.DecimalString | backend/src/services/CrossChainBridge.ts:163 | BigNumber.toString gives non-empty digit text with no leading zero. |
| Decimal.DigitsValueOfDecimalString | backend/src/services/CrossChainBridge.ts:163 | Reading back the text of an amount gives the amount. |
| Decimal.DecimalStringOfDigitsValue | backend/src/services/CrossChainBridge.ts:163 | Writing the value of canonical digit text gives the text back. |
| Processor.EmitInOrder | backend/src/services/CrossChainBridge.ts:476-492 | Notifications are emitted in order and stop at the first listener that raises. The emitted prefix ends with that notification, and no earlier one raised. |
| Processor.HandlerNotes | backend/src/services/CrossChainBridge.ts:440-495 | A verification is announced with exactly the user, nationality, age and date. A new circle is announced with its id, creator, address, country and member limit, and without its amount, transaction or block. A join is announced with the re-check, preceded by a warning exactly when the re-check is negative. An unrecognised event is announced by nothing. |
| Processor.Process | backend/src/services/CrossChainBridge.ts:403-438 | An event type without a case is ignored. A failure can escape only through the channel's error notification, which carries the event and the failing notification. |
| Processor.HandledCleanly | backend/src/services/CrossChainBridge.ts:403-438 | A handler that completes emits its notifications and no error. |
| Processor.HandlerFailureContained | backend/src/services/CrossChainBridge.ts:414-417 | A failure on notification k keeps notifications 0..k and adds one KYC_EVENT_ERROR or ROSCA_EVENT_ERROR notification. Nothing escapes unless that notification's listener raises. |
| Processor.CircleJoinedRule | backend/src/services/CrossChainBridge.ts:471-495 | The INELIGIBLE_MEMBER_JOINED warning, with the check's reason, is emitted first iff the re-check is negative. circleJoined with the check follows unless the warning's listener raised. |
| Processor.StartAsWritten | backend/src/services/CrossChainBridge.ts:385-401 | As written, start sets the flag and then rejects, because the filter lookup of an undeclared event raises; no listener is attached. While the flag is set, start returns without raising. |
| Processor.AsWrittenNeverListens | backend/src/services/CrossChainBridge.ts:385-401 | As written, no sequence of starts and stops attaches a listener, so no log is ever processed. |
| Processor.StartAfterStopRejects | backend/src/services/CrossChainBridge.ts:385-401 | As written, the first start rejects, and so does the first start after any stop. |
| Processor.Start | backend/src/services/CrossChainBridge.ts:385-401 | With the events declared, start is a no-op while processing. Otherwise it sets the flag and attaches one more listener per ledger. |
| Processor.StopAsWritten | backend/src/services/CrossChainBridge.ts:497-500 | stop as written clears the flag and leaves the listener counts unchanged. |
| Processor.Stop | backend/src/services/CrossChainBridge.ts:497-500 | The intended stop clears the flag and detaches every listener. |
| Processor.Deliver | backend/src/services/CrossChainBridge.ts:392-398 | A log reaches every attached listener of its ledger, each running the channel's processing. A log whose numbers do not convert reaches none. |
| Processor.StartStopKeepAttached | backend/src/services/CrossChainBridge.ts:385-389 | Start and the intended stop keep one listener per ledger while processing and none while stopped. Starting twice is starting once. |
| Processor.DeliveredOnceWhileProcessing | backend/src/services/CrossChainBridge.ts:392-398 | With the intended stop, each log is processed once while processing and not at all after stop. |
| Processor.RunKeepsAttached | backend/src/services/CrossChainBridge.ts:385-401 | With the subscribing start and the intended stop, every sequence of starts and stops keeps one listener per ledger while processing and none while stopped, so each log is processed once while processing and never after a stop. |
| Processor.StopAsWrittenKeepsListening | backend/src/services/CrossChainBridge.ts:497-500 | With subscribing working and stop as written, a stopped processor still processes each log. After a restart it processes each log twice. |
| SelfVerification.VerifyProof | backend/src/services/SelfVerificationService.ts:45-92 | A falsy argument gives "Missing required parameters". isValid holds iff the verifier accepted and disclosed, and comes with userData and no error. Defaults are Unknown, 18 and unknown. isHuman and OFAC are true, and the attestation id is echoed. A raised error becomes its message. A refusal gives invalidDetails or "Verification failed". |
| SelfVerification.DocumentTypeOf | backend/src/services/SelfVerificationService.ts:75 | The document type is Aadhaar iff the attestation id is the text "3". |
| SelfVerification.MissingParametersSkipVerifier | backend/src/services/SelfVerificationService.ts:58-60 | With an argument missing, the result does not depend on the verifier. |
| SelfVerification.FailureMessages | backend/src/services/SelfVerificationService.ts:82-91 | Every failure carries an error. It is empty only when a raised error had an empty message. |
| SelfRoutes.VerifyFieldErrors | backend/src/api/selfRoutes.ts:19-33 | No field error iff all four body fields are non-empty. |
| SelfRoutes.VerifySelf | backend/src/api/selfRoutes.ts:24-64 | An empty field gives 400 "Validation failed" with the failed checks. success and verified hold iff the fields pass and verifyProof is valid. The five public fields are copied unchanged. A refusal gives 400 with the service's error or "Verification failed". success holds iff status is 200. |
| SelfRoutes.FieldCheckSkipsVerifier | backend/src/api/selfRoutes.ts:26-33 | A request failing the field check gets the same response whatever the verifier would do. |
| SelfRoutes.FieldCheckWeakerThanGuard | backend/src/api/selfRoutes.ts:19-44 | A request that passes the service's guard passes the field check. One that passes the field check but not the guard gets 400 "Missing required parameters". |
| SelfRoutes.RefusalHasMessage | backend/src/api/selfRoutes.ts:58-63 | A refused verification always reports a non-empty error. |
| SelfRoutes.KycStatusRoute | backend/src/api/selfRoutes.ts:77-102 | A malformed address gives 400 "Invalid Ethereum address" without a ledger read. A well-formed one gives 200 with the bridge's KYC record. |
| Address.MatchAddressPattern | backend/src/api/selfRoutes.ts:81 | The scan accepts iff the text is a lower-case "0x" followed by exactly forty hex digits. |
| Address.DigitCaseIrrelevant | backend/src/api/selfRoutes.ts:81 | Folding the forty digits to lower case neither admits nor rejects any text. |
| Address.AddressChecksDiffer | backend/src/api/selfRoutes.ts:107 | The validation library's address check accepts every address the KYC-status pattern accepts, and in addition exactly those written with an upper-case "0X" prefix. |
| SelfRoutes.CheckEligibility | backend/src/api/selfRoutes.ts:105-138 | An address failing the library's check (either case of the prefix) or a malformed circle id gives 400 with the failed checks. Otherwise the response is 200 with the bridge's eligibility record unchanged. success holds iff status is 200. |
| SelfRoutes.CircleIdTextReadsBack | backend/src/api/selfRoutes.ts:123 | A circle id sent as the decimal text of n reaches the bridge as n. The ledgers are asked about circle n when n < 2^53-1; otherwise the answer is 200 with "Validation failed" and no ledger read, as it is for the rounded value parseInt gives. |

## Left out

- Ledger providers, contract objects, JSON-RPC and log subscriptions: they are the abstract answers and listener counts above.
- `getPlatformStats` (CrossChainBridge.ts:185-212): it only reshapes counters and rethrows any failure. It is not modelled.
- The concurrency of the joint waits: each batch slice is computed in order, and the bound of ten checks in flight is stated as the slice size.
- Interleavings between event callbacks: each log is processed in isolation.
- Processor.Deliver: a log whose numbers do not convert raises inside the contract library's dispatch. What the library then does is not modelled.
- Processor.Process: an error that escapes (the `escaped` flag) becomes an unhandled rejection. The process-level effect is not modelled.
- Date and ISO-8601 formatting: dates are raw seconds. Only the bound beyond which `toISOString` raises is modelled.
- Logging through the console.
- The route copy at CrossChainBridge.ts:272-370 and `bridgeRoutes.ts`: HTTP plumbing over the same bridge calls.
- The `/stats` route: `getSelfVerificationStats` is not part of this model.
- `app.ts` middleware and rate limiting.
- The service's constructor, `getStats` and `healthCheck`: configuration and constant records.
- The proof verifier's internals: its behaviour is the `VerifierOutcome` parameter.
- The frontend pages, components, hooks and client services: UI and wallet plumbing.
- The deployment and configuration scripts.
- SelfRoutes.VerifySelf: a field failure's details are the failed checks' messages only. The library's `errors.array()` also sends each failing field's name, submitted value and location; these are not modelled. The same holds for SelfRoutes.CheckEligibility.
- SelfRoutes.NotEmptyField: the validation library's element-wise check of arrays is not modelled. Arrays and objects count as non-empty.
- SelfRoutes.CheckEligibility: `parseInt`'s rounding to a double is not modelled. It changes only texts of 2^53 or more, and the bridge refuses those ids whether rounded or not.
- Batch.BatchCheckEligibility: the result is a map without an order. The JavaScript Map lists each address at its first occurrence, and a caller can see that order. The model does not state it.
- Eligibility.ValidateEligibility: how the contract library decodes a `tuple` with no declared fields is not modelled. The circle answer is either a failure or an answer with or without a parameter block, and Eligibility.NoCircleParamsNoneEligible covers both of the outcomes the interface as written allows.
- Processor.Start: assumes contract interfaces that declare the UserVerified, CircleCreated and CircleJoined events. With the interfaces as written, start behaves as Processor.StartAsWritten.
- SelfRoutes.CheckEligibility: the circle id is taken as the field's text. Integers only, with an optional sign; fractions and exponents are not modelled.
- SelfVerification.Truthy: NaN is not modelled.
- SelfVerification.VerifyProof: a raised value without a `message` is not modelled. When the verifier throws `null` or `undefined`, reading `error.message` raises in turn, so `verifyProof` rejects and `/verify-self` answers 500. That 500 branch is not modelled. Neither are those of `/kyc-status` and `/check-eligibility`, which cannot be reached because `checkKYCStatus` and `validateROSCAEligibility` never raise.
- SelfVerification.VerifyProof: `olderThan` is a number. A text value would be passed through as text.

## Findings

| source | as written | input that shows it | evidently intended | confidence | as-written member | corrected member |
|---|---|---|---|---|---|---|
| backend/src/services/CrossChainBridge.ts:40-53 | the contract interfaces declare functions only, so `filters.UserVerified()` at line 134 raises a TypeError; `start()` rejects after setting `isProcessing` and attaches no listener | `new EventProcessor(bridge).start()`: it rejects, and no log is ever processed. A second `start()` returns at once without subscribing | the interfaces declare the UserVerified, CircleCreated and CircleJoined events, so `start()` subscribes one listener per event | high, not executed | Processor.StartAsWritten, Processor.AsWrittenNeverListens | Processor.Start, Processor.RunKeepsAttached |
| backend/src/services/CrossChainBridge.ts:48-53 | the circle-ledger interface declares `getCircleInfo` as returning a `tuple` with no fields, so the decoded answer has no `params`; for a verified user, reading `circleInfo.params.country` at line 108 raises a TypeError, which lines 123-128 turn into "Validation failed" | any verified user and any circle: the decision is "Validation failed", and the identity ledger's predicate is never asked | the interface declares the circle structure, so the predicate is asked with the circle's country and ages and its verdict adopted | medium, not executed | Eligibility.NoCircleParamsNoneEligible | Eligibility.PredicateVerdictAdopted, Eligibility.EligibleOnlyWhenPredicateAgrees |
| backend/src/services/CrossChainBridge.ts:497-500 | `stop()` only clears `isProcessing`; the ledger listeners attached by `start()` stay attached | once the events are declared so that `start()` subscribes: `start(); stop();` then any log: it is still processed. `start(); stop(); start();` then any log: it is processed twice | stopping detaches the listeners, so nothing is processed while stopped and a restart processes each log once | medium, not executed | Processor.StopAsWritten, Processor.StopAsWrittenKeepsListening | Processor.Stop, Processor.StartStopKeepAttached, Processor.DeliveredOnceWhileProcessing |
