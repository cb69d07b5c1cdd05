/**
 One connection of the reference server (cli/reference): its lease, stream, staging
 queue, replay ledger and event log, as values, and what each operation makes of them.
 */
module Connections {
  import opened Options
  import Versions

  /** Nanoseconds of the server's clock. */
  type Time = int

  const SECOND: int := 1_000_000_000
  const GRANT_MAX: int := 45 * SECOND
  const HEARTBEAT_INTERVAL: int := 15 * SECOND
  const STAGING_LIMIT: nat := 64
  const STREAM_BUFFER: nat := 65_536

  datatype Kind = SessionPrepare | SessionClose | ToolExecute | ToolStdin | ToolCancel | McpCall

  datatype Event =
    | Connected(resumed: bool)
    | Heartbeat(sequence: int)
    | Disconnect
    | Renew(credentialID: string)
    | Instruct(messageID: string, kind: Kind)

  /** One line of the server's event log: an event queued on stream number `stream`. */
  datatype Sent = Sent(stream: nat, event: Event)

  datatype Stream = Stream(number: nat, started: Time, nextHeartbeat: Option<Time>, frames: seq<Event>, closed: bool)

  datatype Instruction = Instruction(
    messageID: string, kind: Kind, sessionID: string, bindingID: string,
    toolUseEventID: string, taskID: string, tool: string, reported: bool)

  datatype Code =
    | InvalidMessage | RequestTooLarge | StaleConnection | MessageConflict | UnknownInstruction
    | CliUpgradeRequired | CredentialInvalid | CredentialRevoked | CredentialExpired | NotFound
    | PreviousConnectionActive(retry: int) | ConnectionConflict

  datatype Answer =
    | Acknowledgement(messageID: string)
    | GrantAcknowledgement(messageID: string, validFor: int)
    | CredentialKey(credentialID: string, key: string, expiresAt: Time)

  datatype LedgerEntry = LedgerEntry(endpoint: Endpoint, content: string, answer: Answer)

  datatype Reply = Accepted(answer: Answer) | Replayed(answer: Answer) | Refused(code: Code)

  datatype SessionOutcome = Prepared | Failed | Closed | Applied

  /** A decoded upstream message, or the fact that it was too large or failed its schema. */
  datatype Body =
    | TooLarge
    | Malformed
    | Ready(cliVersion: string)
    | Beat(sequence: int)
    | SessionStatus(requestID: string, sessionID: string, bindingID: string, outcome: SessionOutcome)
    | ToolStatus(requestID: string, sessionID: string, bindingID: string, toolUseEventID: string, taskID: string,
                 execution: bool, resultTool: Option<string>, running: bool, overSize: Option<Code>)
    | ProtocolError
    | McpTools(server: string, sequence: int)
    | FetchCredential(credentialID: string, freshKey: string)

  datatype Endpoint = ReadyE | HeartbeatE | SessionStatusE | ToolStatusE | ProtocolErrorE | McpToolsE | CredentialE

  function EndpointOf(body: Body): Endpoint
    requires !body.TooLarge? && !body.Malformed?
  {
    match body
    case Ready(_) => ReadyE
    case Beat(_) => HeartbeatE
    case SessionStatus(_, _, _, _) => SessionStatusE
    case ToolStatus(_, _, _, _, _, _, _, _, _) => ToolStatusE
    case ProtocolError => ProtocolErrorE
    case McpTools(_, _) => McpToolsE
    case FetchCredential(_, _) => CredentialE
  }

  /** The stream side of a connection: its current stream, how many it has had, and its event log. */
  datatype Outbox = Outbox(stream: Option<Stream>, streams: nat, heartbeatSeq: int, log: seq<Sent>)

  /** The instruction side: those issued, in issue order, and those still queued. */
  datatype Work = Work(
    issued: map<string, Instruction>, order: seq<string>, queue: seq<Instruction>,
    sessionIssued: nat, firstReportStored: bool)

  datatype Conn = Conn(
    instance: string, credential: string, leaseUntil: Time, ended: bool,
    readyMessageID: string, readyAccepted: bool, readyRefused: bool, acceptedHeartbeatSeq: int,
    ledger: map<string, LedgerEntry>, out: Outbox, work: Work)

  const NO_WORK: Work := Work(map[], [], [], 0, false)

  function NewConn(instance: string, credential: string, leaseUntil: Time): Conn {
    Conn(instance, credential, leaseUntil, false, "", false, false, 0, map[],
         Outbox(None, 0, 0, []), NO_WORK)
  }

  function Min(a: int, b: int): int { if a < b then a else b }

  // ---------- streams ----------

  /** stream.send: a closed stream takes nothing, a full buffer closes the stream. */
  function Write(out: Outbox, e: Event): Outbox
    requires out.stream.Some?
  {
    var st := out.stream.value;
    if st.closed then out
    else if |st.frames| < STREAM_BUFFER then
      out.(stream := Some(st.(frames := st.frames + [e])), log := out.log + [Sent(st.number, e)])
    else out.(stream := Some(st.(closed := true)))
  }

  function OpenStream(out: Outbox, now: Time): Outbox {
    out.(streams := out.streams + 1, stream := Some(Stream(out.streams + 1, now, None, [], false)))
  }

  function SetNextHeartbeat(out: Outbox, at: Time): Outbox {
    if out.stream.None? then out else out.(stream := Some(out.stream.value.(nextHeartbeat := Some(at))))
  }

  function SendHeartbeat(out: Outbox, at: Time): Outbox
    requires out.stream.Some?
  {
    var n := out.heartbeatSeq + 1;
    SetNextHeartbeat(Write(out.(heartbeatSeq := n), Heartbeat(n)), at + HEARTBEAT_INTERVAL)
  }

  /** The writer takes one frame from the buffer. */
  function TakeFrame(out: Outbox): Outbox {
    if out.stream.Some? && out.stream.value.frames != [] then
      out.(stream := Some(out.stream.value.(frames := out.stream.value.frames[1..])))
    else out
  }

  function DropStream(out: Outbox): Outbox { out.(stream := None) }

  /** endConnection, on the connection itself. */
  function End(c: Conn): Conn {
    if c.ended then c else c.(ended := true, out := DropStream(c.out))
  }

  predicate HeartbeatNext(out: Outbox, ready: bool, limit: Time)
    requires out.stream.Some?
  {
    ready && out.stream.value.nextHeartbeat.Some? && out.stream.value.nextHeartbeat.value < limit
  }

  /** How a stream's tick ends: with more to come, at its maximum age, or at the end of the lease. */
  datatype Ticked = Waits(out: Outbox) | Aged(out: Outbox) | LeaseOver(out: Outbox)

  /** tick's loop: the next thing due, in time order; at one time the lease end first, then the age. */
  function TickLoop(out: Outbox, ready: bool, lease: Time, maxAge: Time, now: Time): (r: Ticked)
    requires out.stream.Some?
    decreases if HeartbeatNext(out, ready, Min(lease, maxAge))
              then Min(lease, maxAge) - out.stream.value.nextHeartbeat.value else 0
  {
    var limit := Min(lease, maxAge);
    if HeartbeatNext(out, ready, limit) then
      var at := out.stream.value.nextHeartbeat.value;
      if now < at then Waits(out) else TickLoop(SendHeartbeat(out, at), ready, lease, maxAge, now)
    else if now < limit then Waits(out)
    else if maxAge < lease then Aged(DropStream(Write(out, Disconnect)))
    else LeaseOver(out)
  }

  function Tick(c: Conn, now: Time, maxStreamAge: int): Conn {
    if c.out.stream.None? || c.out.stream.value.closed then c
    else if c.ended then c.(out := c.out.(stream := Some(c.out.stream.value.(closed := true))))
    else
      match TickLoop(c.out, c.readyAccepted, c.leaseUntil, c.out.stream.value.started + maxStreamAge, now)
      case Waits(out) => c.(out := out)
      case Aged(out) => c.(out := out)
      case LeaseOver(out) => End(c.(out := out))
  }

  // ---------- instructions ----------

  /** dispatch, before the instruction is written on the stream. */
  function Enlist(w: Work, i: Instruction): Work {
    w.(issued := w.issued[i.messageID := i], order := w.order + [i.messageID],
       sessionIssued := if w.firstReportStored then w.sessionIssued else w.sessionIssued + 1)
  }

  function Dispatch(c: Conn, i: Instruction): Conn {
    c.(work := Enlist(c.work, i),
       out := if c.out.stream.Some? then Write(c.out, Instruct(i.messageID, i.kind)) else c.out)
  }

  predicate MayIssue(c: Conn) {
    c.readyAccepted && (c.work.firstReportStored || c.work.sessionIssued < STAGING_LIMIT)
  }

  /** issue, without the early-dispatch bypass. */
  function Issue(c: Conn, i: Instruction): Conn {
    if MayIssue(c) then Dispatch(c, i) else c.(work := c.work.(queue := c.work.queue + [i]))
  }

  /** release's loop body: the front of the queue goes out. */
  function ReleaseFront(c: Conn): Conn
    requires c.work.queue != []
  {
    Dispatch(c.(work := c.work.(queue := c.work.queue[1..])), c.work.queue[0])
  }

  function Release(c: Conn): Conn
    decreases |c.work.queue|
  {
    if c.work.queue != [] && MayIssue(c) then Release(ReleaseFront(c)) else c
  }

  /** resend, from position k of the issue order. */
  function ResendFrom(out: Outbox, w: Work, k: nat): Outbox
    requires out.stream.Some? && k <= |w.order|
    requires forall m :: m in w.order ==> m in w.issued
    decreases |w.order| - k
  {
    if k == |w.order| then out
    else
      var i := w.issued[w.order[k]];
      ResendFrom(if i.reported then out else Write(out, Instruct(i.messageID, i.kind)), w, k + 1)
  }

  /** What an accepted events request writes on the new stream, before any renewal offer. */
  function Attach(c: Conn, now: Time, resumed: bool): Conn
    requires forall m :: m in c.work.order ==> m in c.work.issued
  {
    var started := Write(OpenStream(c.out, now), Connected(resumed));
    if !resumed then c.(out := started)
    else c.(out := ResendFrom(if c.readyAccepted then SendHeartbeat(started, now) else started, c.work, 0))
  }

  /** renewAgain: the offers that are still pending, in the order the credentials are visited. */
  function WriteRenewals(out: Outbox, offers: seq<string>): Outbox
    decreases |offers|
  {
    if offers == [] || out.stream.None? then out
    else WriteRenewals(Write(out, Renew(offers[0])), offers[1..])
  }

  // ---------- upstream messages ----------

  /** What an endpoint reads of the server: the clock, the expiry of the connection's credential, the oldest version. */
  datatype Env = Env(now: Time, expiresAt: Time, minVersion: string)

  predicate TooOld(cliVersion: string, minVersion: string) {
    minVersion != "" && Versions.IsOlder(cliVersion, minVersion)
  }

  /** The validity an accepted ready or heartbeat grants: at most GrantMax, capped by the credential's expiry. */
  function Validity(env: Env): int { Min(env.expiresAt - env.now, GRANT_MAX) }

  /** A ready accepted, before the queue is released. */
  function Admit(c: Conn, env: Env, messageID: string): Conn {
    c.(readyMessageID := messageID, readyAccepted := true, leaseUntil := env.now + Validity(env),
       out := SetNextHeartbeat(c.out, env.now + HEARTBEAT_INTERVAL))
  }

  function ApplyReady(c: Conn, env: Env, messageID: string, tooOld: bool): (Conn, Reply) {
    if c.readyRefused && c.readyMessageID == messageID then (c, Refused(CliUpgradeRequired))
    else if c.readyMessageID != "" then (c, Refused(InvalidMessage))
    else if tooOld then (c.(readyMessageID := messageID, readyRefused := true), Refused(CliUpgradeRequired))
    else if env.expiresAt - env.now <= 0 then (c, Refused(CredentialExpired))
    else (Release(Admit(c, env, messageID)), Accepted(GrantAcknowledgement(messageID, Validity(env))))
  }

  function ApplyHeartbeat(c: Conn, env: Env, messageID: string, sequence: int): (Conn, Reply) {
    if !c.readyAccepted then (c, Refused(InvalidMessage))
    else if sequence <= c.acceptedHeartbeatSeq then (c, Refused(InvalidMessage))
    else if env.expiresAt - env.now <= 0 then (c, Refused(CredentialExpired))
    else
      (c.(acceptedHeartbeatSeq := sequence, leaseUntil := env.now + Validity(env)),
       Accepted(GrantAcknowledgement(messageID, Validity(env))))
  }

  predicate AnswersSession(i: Instruction, report: Body)
    requires report.SessionStatus?
  {
    && i.sessionID == report.sessionID && i.bindingID == report.bindingID
    && ((i.kind.SessionPrepare? && (report.outcome.Prepared? || report.outcome.Failed?)) ||
        (i.kind.SessionClose? && report.outcome.Closed?))
  }

  function MarkReported(w: Work, m: string): Work
    requires m in w.issued
  {
    w.(issued := w.issued[m := w.issued[m].(reported := true)])
  }

  function ApplySessionStatus(c: Conn, messageID: string, report: Body): (Conn, Reply)
    requires report.SessionStatus?
  {
    if report.requestID !in c.work.issued || !AnswersSession(c.work.issued[report.requestID], report) then
      (c, Refused(UnknownInstruction))
    else
      var w := MarkReported(c.work, report.requestID);
      (if w.firstReportStored then c.(work := w) else Release(c.(work := w.(firstReportStored := true))),
       Accepted(Acknowledgement(messageID)))
  }

  predicate AnswersTool(i: Instruction, report: Body)
    requires report.ToolStatus?
  {
    && (if report.execution then i.kind.ToolExecute? || i.kind.McpCall? else i.kind.ToolStdin? || i.kind.ToolCancel?)
    && (report.execution && report.resultTool.Some? ==> report.resultTool.value == i.tool)
    && i.sessionID == report.sessionID && i.bindingID == report.bindingID
    && i.toolUseEventID == report.toolUseEventID && i.taskID == report.taskID
  }

  function ApplyToolStatus(c: Conn, messageID: string, report: Body): (Conn, Reply)
    requires report.ToolStatus?
  {
    if report.requestID !in c.work.issued || !AnswersTool(c.work.issued[report.requestID], report) then
      (c, Refused(UnknownInstruction))
    else if report.overSize.Some? then (c, Refused(report.overSize.value))
    else
      (if !report.execution || !report.running then c.(work := MarkReported(c.work, report.requestID)) else c,
       Accepted(Acknowledgement(messageID)))
  }

  predicate Replayable(body: Body) {
    !body.TooLarge? && !body.Malformed? && !body.FetchCredential?
  }

  /** The endpoint's own rules on a message that is not a retry. */
  function Apply(c: Conn, env: Env, messageID: string, body: Body): (Conn, Reply)
    requires Replayable(body)
  {
    match body
    case Ready(v) => ApplyReady(c, env, messageID, TooOld(v, env.minVersion))
    case Beat(n) => ApplyHeartbeat(c, env, messageID, n)
    case SessionStatus(_, _, _, _) => ApplySessionStatus(c, messageID, body)
    case ToolStatus(_, _, _, _, _, _, _, _, _) => ApplyToolStatus(c, messageID, body)
    case ProtocolError => (c, Accepted(Acknowledgement(messageID)))
    case McpTools(_, _) => (c, Accepted(Acknowledgement(messageID)))
  }

  function Record(c: Conn, endpoint: Endpoint, messageID: string, content: string, answer: Answer): Conn {
    c.(ledger := c.ledger[messageID := LedgerEntry(endpoint, content, answer)])
  }

  /** serve, from the replay ledger on, for a message of the live connection. */
  function Serve(c: Conn, env: Env, messageID: string, content: string, body: Body): (Conn, Reply)
    requires Replayable(body)
  {
    if messageID in c.ledger then
      var entry := c.ledger[messageID];
      if entry.endpoint != EndpointOf(body) || entry.content != content then (c, Refused(MessageConflict))
      else (c, Replayed(entry.answer))
    else
      var (c1, reply) := Apply(c, env, messageID, body);
      (if reply.Accepted? then Record(c1, EndpointOf(body), messageID, content, reply.answer) else c1, reply)
  }
}
