/** The `EventProcessor`: a started/stopped flag, per-ledger dispatch of
    normalised events to handlers, and containment of handler failures. */
module Processor {
  import opened Base
  import opened Eligibility
  import opened Events

  /** The two error kinds, by the ledger whose event failed. */
  datatype ErrorKind = KycEventError | RoscaEventError

  function ErrorType(k: ErrorKind): string
  {
    match k
    case KycEventError => "KYC_EVENT_ERROR"
    case RoscaEventError => "ROSCA_EVENT_ERROR"
  }

  const WarningType: string := "INELIGIBLE_MEMBER_JOINED"

  /** One notification the processor emits. The emitted event names are, in
      order of constructors: 'userVerified', 'circleCreated', 'warning',
      'circleJoined' and 'error'. Timestamps are raw seconds. */
  datatype Emission =
    | UserVerifiedNote(userAddress: string, nationality: string, age: nat, timestamp: nat)
    | CircleCreatedNote(circleId: nat, creator: string, circleAddress: string, country: string, maxMembers: nat)
    | IneligibleMemberJoined(member: string, circleId: nat, reason: string)
    | CircleJoinedNote(circleId: nat, member: string, eligibility: EligibilityCheck)
    | EventError(kind: ErrorKind, event: ChainEvent, cause: Emission)

  /** The two subscriber callbacks: one per ledger. */
  datatype Channel = KycChannel | RoscaChannel

  function KindOf(ch: Channel): ErrorKind
  {
    match ch
    case KycChannel => KycEventError
    case RoscaChannel => RoscaEventError
  }

  /** The event types a channel's `switch` has a case for. */
  predicate Handles(ch: Channel, e: ChainEvent)
  {
    match ch
    case KycChannel => TypeTag(e) == "USER_VERIFIED"
    case RoscaChannel => TypeTag(e) == "CIRCLE_CREATED" || TypeTag(e) == "CIRCLE_JOINED"
  }

  /** The emitted event name of a notification. */
  function EventName(m: Emission): string
  {
    match m
    case UserVerifiedNote(_, _, _, _) => "userVerified"
    case CircleCreatedNote(_, _, _, _, _) => "circleCreated"
    case IneligibleMemberJoined(_, _, _) => "warning"
    case CircleJoinedNote(_, _, _) => "circleJoined"
    case EventError(_, _, _) => "error"
  }

  /** The `type` field of a notification's payload, where it has one. */
  function TypeField(m: Emission): Option<string>
  {
    match m
    case IneligibleMemberJoined(_, _, _) => Some(WarningType)
    case EventError(kind, _, _) => Some(ErrorType(kind))
    case _ => None
  }

  /** The notifications a handler emits, in order. Joining a circle re-checks
      the member against the ledgers in state `chains`. */
  function HandlerNotes(chains: Chains, e: ChainEvent): (notes: seq<Emission>)
    // a verification announces the user, nationality, age and date only
    ensures e.UserVerified? ==> notes == [UserVerifiedNote(e.userAddress, e.nationality, e.age, e.timestamp)]
    // a new circle is announced without its amount, transaction or block
    ensures e.CircleCreated? ==>
      notes == [CircleCreatedNote(e.circleId, e.creator, e.circleAddress, e.country, e.maxMembers)]
    // a join is announced with the re-check, after a warning iff the re-check is negative
    ensures e.CircleJoined? ==>
      var check := ValidateEligibility(chains, e.member, e.circleId).check;
      && 1 <= |notes| <= 2
      && notes[|notes| - 1] == CircleJoinedNote(e.circleId, e.member, check)
      && (|notes| == 2 <==> !check.eligible)
      && (|notes| == 2 ==> notes[0] == IneligibleMemberJoined(e.member, e.circleId, check.reason))
    ensures e.Unrecognised? ==> notes == []
  {
    match e
    case UserVerified(user, _, nationality, age, ts, _, _) => [UserVerifiedNote(user, nationality, age, ts)]
    case CircleCreated(id, creator, circle, _, country, members, _, _) =>
      [CircleCreatedNote(id, creator, circle, country, members)]
    case CircleJoined(id, member, _, _) =>
      var eligibility := ValidateEligibility(chains, member, id).check;
      (if eligibility.eligible then [] else [IneligibleMemberJoined(member, id, eligibility.reason)]) +
      [CircleJoinedNote(id, member, eligibility)]
    case Unrecognised(_) => []
  }

  /** The notifications emitted before a listener raised, ending with the one
      it raised on, if any did. */
  datatype Emitted = Emitted(done: seq<Emission>, thrown: Option<Emission>)

  /** Emits `notes` in order. `throws(m)` says whether emitting `m` raises:
      one of its listeners raises, or, for an 'error' notification, none is
      attached. Emitting stops at the first such notification. */
  function EmitInOrder(notes: seq<Emission>, throws: Emission -> bool): (r: Emitted)
    ensures r.thrown.None? <==> forall i :: 0 <= i < |notes| ==> !throws(notes[i])
    ensures r.thrown.None? ==> r.done == notes
    ensures r.thrown.Some? ==>
      && 1 <= |r.done| <= |notes|
      && r.done == notes[..|r.done|]
      && r.thrown.value == r.done[|r.done| - 1]
      && throws(r.thrown.value)
      && forall i :: 0 <= i < |r.done| - 1 ==> !throws(r.done[i])
    decreases |notes|
  {
    if |notes| == 0 then Emitted([], None)
    else if throws(notes[0]) then Emitted([notes[0]], Some(notes[0]))
    else
      var rest := EmitInOrder(notes[1..], throws);
      Emitted([notes[0]] + rest.done, rest.thrown)
  }

  /** The outcome of one callback: what was emitted, and whether an error
      escaped the callback (the 'error' notification itself raised). */
  datatype Step = Step(emitted: seq<Emission>, escaped: bool)

  /** `processKYCEvent` / `processROSCAEvent`: dispatch on the event type, and
      turn a handler failure into an 'error' notification. */
  function Process(ch: Channel, chains: Chains, throws: Emission -> bool, e: ChainEvent): (r: Step)
    // an event without a case is ignored
    ensures !Handles(ch, e) ==> r == Step([], false)
    // only the 'error' notification can let a failure escape
    ensures r.escaped ==>
      |r.emitted| >= 2 && r.emitted[|r.emitted| - 1] == EventError(KindOf(ch), e, r.emitted[|r.emitted| - 2]) &&
      throws(r.emitted[|r.emitted| - 1])
  {
    if !Handles(ch, e) then Step([], false)
    else
      var run := EmitInOrder(HandlerNotes(chains, e), throws);
      match run.thrown
      case None => Step(run.done, false)
      case Some(cause) =>
        var error := EventError(KindOf(ch), e, cause);
        Step(run.done + [error], throws(error))
  }

  /** A handler that runs to completion emits all of its notifications and
      nothing else. */
  lemma HandledCleanly(ch: Channel, chains: Chains, throws: Emission -> bool, e: ChainEvent)
    requires Handles(ch, e)
    requires forall i :: 0 <= i < |HandlerNotes(chains, e)| ==> !throws(HandlerNotes(chains, e)[i])
    ensures Process(ch, chains, throws, e) == Step(HandlerNotes(chains, e), false)
  {
  }

  /** A handler failure on its `k`-th notification is contained: the
      notifications up to it stand, the failure is reported as the channel's
      error type carrying the event, and nothing escapes unless reporting
      the error itself raises. */
  lemma HandlerFailureContained(ch: Channel, chains: Chains, throws: Emission -> bool, e: ChainEvent, k: nat)
    requires Handles(ch, e)
    requires k < |HandlerNotes(chains, e)| && throws(HandlerNotes(chains, e)[k])
    requires forall i :: 0 <= i < k ==> !throws(HandlerNotes(chains, e)[i])
    ensures
      var notes := HandlerNotes(chains, e);
      var error := EventError(KindOf(ch), e, notes[k]);
      Process(ch, chains, throws, e) == Step(notes[..k + 1] + [error], throws(error))
    // the report is an 'error' notification typed by the failing channel
    ensures EventName(EventError(KindOf(ch), e, HandlerNotes(chains, e)[k])) == "error"
    ensures TypeField(EventError(KindOf(ch), e, HandlerNotes(chains, e)[k])) ==
      Some(if ch == KycChannel then "KYC_EVENT_ERROR" else "ROSCA_EVENT_ERROR")
  {
  }

  /** Joining a circle: the member is re-checked; an 'INELIGIBLE_MEMBER_JOINED'
      warning carrying the check's reason comes first exactly when the check
      is negative, and 'circleJoined' with the check follows it unless the
      warning's listener raised. */
  lemma CircleJoinedRule(chains: Chains, throws: Emission -> bool, id: nat, member: string, tx: string, block: nat)
    ensures
      var e := CircleJoined(id, member, tx, block);
      var eligibility := ValidateEligibility(chains, member, id).check;
      var warning := IneligibleMemberJoined(member, id, eligibility.reason);
      var joined := CircleJoinedNote(id, member, eligibility);
      var r := Process(RoscaChannel, chains, throws, e);
      && (eligibility.eligible ==> forall i :: 0 <= i < |r.emitted| ==> !r.emitted[i].IneligibleMemberJoined?)
      && (!eligibility.eligible ==> |r.emitted| >= 1 && r.emitted[0] == warning)
      && EventName(warning) == "warning" && TypeField(warning) == Some("INELIGIBLE_MEMBER_JOINED")
      && (joined in r.emitted <==> eligibility.eligible || !throws(warning))
      && (!throws(warning) && !throws(joined) ==>
            r.emitted == (if eligibility.eligible then [] else [warning]) + [joined] && !r.escaped)
  {
  }

  /** The processor's state: the `isProcessing` flag and, per ledger, the
      number of attached listeners a single log of that ledger reaches (a
      subscribing start adds one per ledger: a circle-ledger log matches only
      the one of its two listeners whose event type it has). */
  datatype Processor = Processor(processing: bool, kycListeners: nat, roscaListeners: nat)

  const Initial: Processor := Processor(false, 0, 0)

  /** The outcome of one `start()`: the new state, and whether the call
      rejected. */
  datatype Started = Started(state: Processor, raised: bool)

  /** `start()` as written. The contract interfaces are built from function
      declarations only, so the library's filter table has no `UserVerified`
      entry and calling it raises a TypeError. The call rejects after setting
      the flag and before any listener is attached; while the flag stays set,
      a later call returns at once. */
  function StartAsWritten(p: Processor): (r: Started)
    ensures r.state.processing
    ensures r.state.kycListeners == p.kycListeners && r.state.roscaListeners == p.roscaListeners
    ensures r.raised <==> !p.processing
  {
    if p.processing then Started(p, false)
    else Started(p.(processing := true), true)
  }

  /** `start()` with the three events declared, so that subscribing works:
      nothing happens while already processing. */
  function Start(p: Processor): (q: Processor)
    ensures q.processing
    ensures p.processing ==> q == p
    ensures !p.processing ==> q.kycListeners == p.kycListeners + 1 && q.roscaListeners == p.roscaListeners + 1
  {
    if p.processing then p
    else Processor(true, p.kycListeners + 1, p.roscaListeners + 1)
  }

  /** `stop()` as written: the flag is cleared, the listeners stay attached. */
  function StopAsWritten(p: Processor): (q: Processor)
    ensures !q.processing && q.kycListeners == p.kycListeners && q.roscaListeners == p.roscaListeners
  {
    p.(processing := false)
  }

  /** `stop()` as intended: the flag is cleared and the listeners detached. */
  function Stop(p: Processor): (q: Processor)
    ensures !q.processing && q.kycListeners == 0 && q.roscaListeners == 0
  {
    Processor(false, 0, 0)
  }

  function ChannelOf(log: RawLog): Channel
  {
    if FromIdentityLedger(log) then KycChannel else RoscaChannel
  }

  function ListenersFor(p: Processor, log: RawLog): nat
  {
    if FromIdentityLedger(log) then p.kycListeners else p.roscaListeners
  }

  /** One log arriving: every attached listener of its ledger normalises it
      and runs the channel's callback. A log whose numbers do not convert
      never reaches the callback. */
  function Deliver(p: Processor, chains: Chains, throws: Emission -> bool, log: RawLog): (r: seq<Step>)
    ensures Normalise(log).None? ==> r == []
    ensures Normalise(log).Some? ==> |r| == ListenersFor(p, log)
    ensures forall i :: 0 <= i < |r| ==> r[i] == Process(ChannelOf(log), chains, throws, Normalise(log).value)
  {
    match Normalise(log)
    case None => []
    case Some(e) =>
      var step := Process(ChannelOf(log), chains, throws, e);
      seq(ListenersFor(p, log), _ => step)
  }

  /** The intended invariant: exactly one listener per ledger while
      processing, none while stopped. */
  predicate Attached(p: Processor)
  {
    p.kycListeners == p.roscaListeners == (if p.processing then 1 else 0)
  }

  /** Starting and stopping keep the invariant, and starting twice is
      starting once. */
  lemma StartStopKeepAttached(p: Processor)
    requires Attached(p)
    ensures Attached(Start(p)) && Attached(Stop(p))
    ensures Start(Start(p)) == Start(p)
  {
  }

  /** Under the invariant each log is processed once while processing and
      not at all once stopped. */
  lemma DeliveredOnceWhileProcessing(p: Processor, chains: Chains, throws: Emission -> bool, log: RawLog)
    requires Attached(p)
    ensures |Deliver(p, chains, throws, log)| == if p.processing && Normalise(log).Some? then 1 else 0
  {
  }

  /** With subscribing working and `stop()` as written, a stopped processor
      still processes every log, and a restart attaches a second listener so
      every log is then processed twice. */
  lemma StopAsWrittenKeepsListening(chains: Chains, throws: Emission -> bool, log: RawLog)
    requires Normalise(log).Some?
    ensures !StopAsWritten(Start(Initial)).processing
    ensures |Deliver(StopAsWritten(Start(Initial)), chains, throws, log)| == 1
    ensures |Deliver(Start(StopAsWritten(Start(Initial))), chains, throws, log)| == 2
    ensures !Attached(StopAsWritten(Start(Initial)))
  {
  }

  /** The calls a host makes on the processor. */
  datatype Command = StartCommand | StopCommand

  /** The state after `cmds`, with `start()` and `stop()` as written. */
  function RunAsWritten(p: Processor, cmds: seq<Command>): Processor
    decreases |cmds|
  {
    if |cmds| == 0 then p
    else
      var q := match cmds[0]
        case StartCommand => StartAsWritten(p).state
        case StopCommand => StopAsWritten(p);
      RunAsWritten(q, cmds[1..])
  }

  /** The state after `cmds`, with the subscribing start and the intended stop. */
  function Run(p: Processor, cmds: seq<Command>): Processor
    decreases |cmds|
  {
    if |cmds| == 0 then p
    else
      var q := match cmds[0]
        case StartCommand => Start(p)
        case StopCommand => Stop(p);
      Run(q, cmds[1..])
  }

  /** As written, no sequence of starts and stops ever attaches a listener,
      so no log is ever processed. */
  lemma {:induction false} AsWrittenNeverListens(p: Processor, cmds: seq<Command>, chains: Chains, throws: Emission -> bool, log: RawLog)
    requires p.kycListeners == 0 && p.roscaListeners == 0
    ensures RunAsWritten(p, cmds).kycListeners == 0 && RunAsWritten(p, cmds).roscaListeners == 0
    ensures Deliver(RunAsWritten(p, cmds), chains, throws, log) == []
    decreases |cmds|
  {
    if |cmds| > 0 {
      var q := match cmds[0]
        case StartCommand => StartAsWritten(p).state
        case StopCommand => StopAsWritten(p);
      AsWrittenNeverListens(q, cmds[1..], chains, throws, log);
    }
  }

  /** With the subscribing start and the intended stop, every sequence of
      calls keeps exactly one listener per ledger while processing, so each
      log is processed once while processing and never after a stop. */
  lemma {:induction false} RunKeepsAttached(p: Processor, cmds: seq<Command>, chains: Chains, throws: Emission -> bool, log: RawLog)
    requires Attached(p)
    ensures Attached(Run(p, cmds))
    ensures |Deliver(Run(p, cmds), chains, throws, log)| ==
      if Run(p, cmds).processing && Normalise(log).Some? then 1 else 0
    decreases |cmds|
  {
    if |cmds| == 0 {
      DeliveredOnceWhileProcessing(p, chains, throws, log);
    } else {
      StartStopKeepAttached(p);
      var q := match cmds[0]
        case StartCommand => Start(p)
        case StopCommand => Stop(p);
      RunKeepsAttached(q, cmds[1..], chains, throws, log);
    }
  }

  /** As written, the first start rejects, and so does the first start after
      any stop. */
  lemma StartAfterStopRejects(p: Processor)
    ensures StartAsWritten(Initial).raised
    ensures StartAsWritten(StopAsWritten(p)).raised
  {
  }
}
