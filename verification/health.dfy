/** The bridge's `healthCheck`: one block-height probe per ledger, combined
    all-or-nothing, never raising. */
module Health {
  import opened Base

  /** The addresses of the two contracts the bridge was built with. */
  datatype Deployment = Deployment(kycContract: string, roscaFactory: string)

  datatype ChainStatus =
    | Connected(latestBlock: nat, contract: string)
    | Disconnected(error: string)

  /** The report; `timestamp` is the raw clock reading it was made at. */
  datatype HealthReport = HealthReport(celo: ChainStatus, ethereum: ChainStatus, timestamp: int)

  /** The error the joint wait rejects with: the first probe to fail. When
      both fail, which one fails first is a matter of timing, given by
      `celoFailsFirst`. */
  function FirstFailure(celo: Answer<nat>, ethereum: Answer<nat>, celoFailsFirst: bool): string
    requires celo.Err? || ethereum.Err?
  {
    if celo.Err? && (ethereum.Ok? || celoFailsFirst) then celo.message else ethereum.message
  }

  /** `healthCheck()` given the two probes' answers and the clock reading. */
  function HealthCheck(d: Deployment, celo: Answer<nat>, ethereum: Answer<nat>, celoFailsFirst: bool, now: int): (r: HealthReport)
    // all or nothing: the two ledgers are reported connected together or not at all
    ensures r.celo.Connected? <==> r.ethereum.Connected?
    ensures r.celo.Connected? <==> celo.Ok? && ethereum.Ok?
    // when connected, each ledger reports its own height and contract
    ensures r.celo.Connected? ==>
      r.celo == Connected(celo.value, d.kycContract) && r.ethereum == Connected(ethereum.value, d.roscaFactory)
    // when not, both carry the same message, taken from a probe that failed
    ensures r.celo.Disconnected? ==>
      r.celo.error == r.ethereum.error &&
      ((celo.Err? && r.celo.error == celo.message) || (ethereum.Err? && r.celo.error == ethereum.message))
    // a single failing probe decides the message
    ensures celo.Err? && ethereum.Ok? ==> r.celo == Disconnected(celo.message)
    ensures celo.Ok? && ethereum.Err? ==> r.celo == Disconnected(ethereum.message)
    ensures r.timestamp == now
  {
    if celo.Ok? && ethereum.Ok? then
      HealthReport(Connected(celo.value, d.kycContract), Connected(ethereum.value, d.roscaFactory), now)
    else
      var message := FirstFailure(celo, ethereum, celoFailsFirst);
      HealthReport(Disconnected(message), Disconnected(message), now)
  }

  /** The timing of the two probes matters only when both fail: with at
      least one probe answering, the report is the same either way. */
  lemma TimingMattersOnlyWhenBothFail(d: Deployment, celo: Answer<nat>, ethereum: Answer<nat>, now: int)
    ensures celo.Ok? || ethereum.Ok? ==> HealthCheck(d, celo, ethereum, true, now) == HealthCheck(d, celo, ethereum, false, now)
    ensures celo.Err? && ethereum.Err? && celo.message != ethereum.message ==>
      HealthCheck(d, celo, ethereum, true, now) != HealthCheck(d, celo, ethereum, false, now)
  {
  }
}
