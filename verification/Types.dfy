/** Entities shared by the models of the delivery core. */
module Types {

  datatype Option<+T> = None | Some(value: T)

  newtype Byte = x: int | 0 <= x < 256

  /** One agent payload. `serial` is its arrival number: it tells apart two payloads with equal bytes. */
  datatype Payload = Payload(serial: nat, bytes: seq<Byte>)

  /** One `platform.report` line together with the request id its record carried. */
  datatype Report = Report(requestId: string, line: seq<Byte>)

  /** An entry of the batch buffer: every payload of one request, with at most one report. */
  datatype BatchedAgentPayload = BatchedAgentPayload(
    requestId: string,
    payloads: seq<Payload>,
    report: Option<Report>,
    arn: string,
    timestamp: int)

  /** One element of `logEvents` in the document that is sent. */
  datatype LogEvent =
    | AgentEvent(id: string, payload: Payload, agentTime: int)
    | ReportEvent(id: string, report: Report, reportTime: int)
    | VersionEvent(id: string, line: string, versionTime: int)

  /** Integer division that truncates toward zero, as durations are truncated to whole units. */
  function TruncatedUnits(duration: int, unit: int): int
    requires unit > 0
  {
    if duration >= 0 then duration / unit else -((-duration) / unit)
  }
}
