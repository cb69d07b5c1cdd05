/**
 The connection as the server updates it in place (leases.go, ledger.go, server.go): each
 method is proved to make of the fields what the functions of Connections say.
 */
module ConnectionObject {
  import opened Options
  import opened Connections
  import Versions

  class Connection {
    const instance: string
    var credential: string
    var leaseUntil: Time
    var ended: bool
    var readyMessageID: string
    var readyAccepted: bool
    var readyRefused: bool
    var acceptedHeartbeatSeq: int
    var ledger: map<string, LedgerEntry>
    var stream: Option<Stream>
    var streams: nat
    var heartbeatSeq: int
    var log: seq<Sent>
    var issued: map<string, Instruction>
    var order: seq<string>
    var queue: seq<Instruction>
    var sessionIssued: nat
    var firstReportStored: bool

    ghost function Out(): Outbox
      reads this
    {
      Outbox(stream, streams, heartbeatSeq, log)
    }

    ghost function View(): Conn
      reads this
    {
      Conn(instance, credential, leaseUntil, ended, readyMessageID, readyAccepted, readyRefused, acceptedHeartbeatSeq,
           ledger, Out(), Work(issued, order, queue, sessionIssued, firstReportStored))
    }

    constructor (instance: string, credential: string, leaseUntil: Time)
      ensures View() == NewConn(instance, credential, leaseUntil) && order == []
    {
      this.instance, this.credential, this.leaseUntil, this.ended := instance, credential, leaseUntil, false;
      this.readyMessageID, this.readyAccepted, this.readyRefused, this.acceptedHeartbeatSeq := "", false, false, 0;
      this.ledger, this.stream, this.streams, this.heartbeatSeq, this.log := map[], None, 0, 0, [];
      this.issued, this.order, this.queue, this.sessionIssued, this.firstReportStored := map[], [], [], 0, false;
    }

    // ---------- streams ----------

    method Send(e: Event)
      requires stream.Some?
      modifies this
      ensures View() == old(View()).(out := Write(old(Out()), e))
    {
      if stream.value.closed {
        return;
      }
      if |stream.value.frames| < STREAM_BUFFER {
        log := log + [Sent(stream.value.number, e)];
        stream := Some(stream.value.(frames := stream.value.frames + [e]));
      } else {
        CloseStream();
      }
    }

    method CloseStream()
      requires stream.Some?
      modifies this`stream
      ensures stream == Some(old(stream).value.(closed := true))
    {
      stream := Some(stream.value.(closed := true));
    }

    method OpenStream(now: Time)
      modifies this
      ensures View() == old(View()).(out := Connections.OpenStream(old(Out()), now))
    {
      streams := streams + 1;
      stream := Some(Stream(streams, now, None, [], false));
    }

    method SendHeartbeat(at: Time)
      requires stream.Some?
      modifies this
      ensures View() == old(View()).(out := Connections.SendHeartbeat(old(Out()), at))
    {
      heartbeatSeq := heartbeatSeq + 1;
      Send(Heartbeat(heartbeatSeq));
      stream := Some(stream.value.(nextHeartbeat := Some(at + HEARTBEAT_INTERVAL)));
    }

    /** endConnection, on the connection itself. */
    method EndConnection()
      modifies this
      ensures View() == End(old(View()))
    {
      if ended {
        return;
      }
      ended := true;
      stream := None;
    }

    /** Everything due on the current stream at time now, in the order of the times. */
    method Tick(now: Time, maxStreamAge: int)
      modifies this
      ensures View() == Connections.Tick(old(View()), now, maxStreamAge)
    {
      if stream.None? || stream.value.closed {
        return;
      }
      if ended {
        CloseStream();
        return;
      }
      var maxAge := stream.value.started + maxStreamAge;
      while true
        invariant stream.Some?
        invariant View() == old(View()).(out := Out())
        invariant TickLoop(Out(), readyAccepted, leaseUntil, maxAge, now) ==
                  TickLoop(old(Out()), readyAccepted, leaseUntil, maxAge, now)
        decreases if HeartbeatNext(Out(), readyAccepted, Min(leaseUntil, maxAge))
                  then Min(leaseUntil, maxAge) - stream.value.nextHeartbeat.value else 0
      {
        var next, due := leaseUntil, 0;
        if maxAge < next {
          next, due := maxAge, 1;
        }
        if readyAccepted && stream.value.nextHeartbeat.Some? && stream.value.nextHeartbeat.value < next {
          next, due := stream.value.nextHeartbeat.value, 2;
        }
        if now < next {
          return;
        }
        if due == 0 {
          EndConnection();
          return;
        } else if due == 1 {
          Send(Disconnect);
          CloseStream();
          stream := None;
          return;
        } else {
          SendHeartbeat(next);
        }
      }
    }

    // ---------- instructions ----------

    method Dispatch(i: Instruction)
      modifies this
      ensures View() == Connections.Dispatch(old(View()), i)
    {
      issued := issued[i.messageID := i];
      order := order + [i.messageID];
      if !firstReportStored {
        sessionIssued := sessionIssued + 1;
      }
      if stream.Some? {
        Send(Instruct(i.messageID, i.kind));
      }
    }

    method Issue(i: Instruction)
      modifies this
      ensures View() == Connections.Issue(old(View()), i)
    {
      var held := !readyAccepted || (!firstReportStored && sessionIssued >= STAGING_LIMIT);
      if held {
        queue := queue + [i];
      } else {
        Dispatch(i);
      }
    }

    method Release()
      modifies this
      ensures View() == Connections.Release(old(View()))
    {
      while |queue| > 0 && readyAccepted && (firstReportStored || sessionIssued < STAGING_LIMIT)
        invariant Connections.Release(View()) == Connections.Release(old(View()))
        decreases |queue|
      {
        var next := queue[0];
        queue := queue[1..];
        Dispatch(next);
      }
    }

    method Resend()
      requires stream.Some? && forall m :: m in order ==> m in issued
      modifies this
      ensures View() == old(View()).(out := ResendFrom(old(Out()), old(View()).work, 0))
    {
      for k := 0 to |order|
        invariant View() == old(View()).(out := Out()) && stream.Some?
        invariant ResendFrom(Out(), View().work, k) == ResendFrom(old(Out()), old(View()).work, 0)
      {
        var i := issued[order[k]];
        if !i.reported {
          Send(Instruct(i.messageID, i.kind));
        }
      }
    }

    /** The locked part of an accepted events request, up to the renewal offers. */
    method Attach(now: Time, resumed: bool)
      requires forall m :: m in order ==> m in issued
      modifies this
      ensures View() == Connections.Attach(old(View()), now, resumed)
    {
      OpenStream(now);
      Send(Connected(resumed));
      if resumed {
        if readyAccepted {
          SendHeartbeat(now);
        }
        Resend();
      }
    }

    method OfferRenewals(offers: seq<string>)
      modifies this
      ensures View() == old(View()).(out := WriteRenewals(old(Out()), offers))
    {
      if stream.None? {
        return;
      }
      for k := 0 to |offers|
        invariant View() == old(View()).(out := Out()) && stream.Some?
        invariant WriteRenewals(Out(), offers[k..]) == WriteRenewals(old(Out()), offers)
      {
        assert offers[k..][1..] == offers[k + 1..];
        Send(Renew(offers[k]));
      }
    }

    // ---------- upstream messages ----------

    static method OlderThan(cliVersion: string, minVersion: string) returns (tooOld: bool)
      ensures tooOld == TooOld(cliVersion, minVersion)
    {
      tooOld := false;
      if minVersion != "" {
        tooOld := Versions.Older(cliVersion, minVersion);
      }
    }

    method AdmitReady(env: Env, messageID: string)
      modifies this
      ensures View() == Admit(old(View()), env, messageID)
    {
      readyMessageID, readyAccepted := messageID, true;
      leaseUntil := env.now + Validity(env);
      if stream.Some? {
        stream := Some(stream.value.(nextHeartbeat := Some(env.now + HEARTBEAT_INTERVAL)));
      }
    }

    method Ready(env: Env, messageID: string, cliVersion: string) returns (reply: Reply)
      modifies this
      ensures (View(), reply) == ApplyReady(old(View()), env, messageID, TooOld(cliVersion, env.minVersion))
    {
      hide TooOld, Admit, Connections.Release;
      if readyRefused && readyMessageID == messageID {
        return Refused(CliUpgradeRequired);
      }
      if readyMessageID != "" {
        return Refused(InvalidMessage);
      }
      var tooOld := OlderThan(cliVersion, env.minVersion);
      if tooOld {
        readyMessageID, readyRefused := messageID, true;
        return Refused(CliUpgradeRequired);
      }
      var remaining := env.expiresAt - env.now;
      if remaining <= 0 {
        return Refused(CredentialExpired);
      }
      AdmitReady(env, messageID);
      Release();
      return Accepted(GrantAcknowledgement(messageID, Validity(env)));
    }

    method Beat(env: Env, messageID: string, sequence: int) returns (reply: Reply)
      modifies this
      ensures (View(), reply) == ApplyHeartbeat(old(View()), env, messageID, sequence)
    {
      if !readyAccepted || sequence <= acceptedHeartbeatSeq {
        return Refused(InvalidMessage);
      }
      var remaining := env.expiresAt - env.now;
      if remaining <= 0 {
        return Refused(CredentialExpired);
      }
      var valid := Min(remaining, GRANT_MAX);
      acceptedHeartbeatSeq := sequence;
      leaseUntil := env.now + valid;
      return Accepted(GrantAcknowledgement(messageID, valid));
    }

    method SessionReport(messageID: string, report: Body) returns (reply: Reply)
      requires report.SessionStatus?
      modifies this
      ensures (View(), reply) == ApplySessionStatus(old(View()), messageID, report)
    {
      if report.requestID !in issued || !AnswersSession(issued[report.requestID], report) {
        return Refused(UnknownInstruction);
      }
      issued := issued[report.requestID := issued[report.requestID].(reported := true)];
      if !firstReportStored {
        firstReportStored := true;
        Release();
      }
      return Accepted(Acknowledgement(messageID));
    }

    method ToolReport(messageID: string, report: Body) returns (reply: Reply)
      requires report.ToolStatus?
      modifies this
      ensures (View(), reply) == ApplyToolStatus(old(View()), messageID, report)
    {
      if report.requestID !in issued || !AnswersTool(issued[report.requestID], report) {
        return Refused(UnknownInstruction);
      }
      if report.overSize.Some? {
        return Refused(report.overSize.value);
      }
      if !report.execution || !report.running {
        issued := issued[report.requestID := issued[report.requestID].(reported := true)];
      }
      return Accepted(Acknowledgement(messageID));
    }

    method ApplyBody(env: Env, messageID: string, body: Body) returns (reply: Reply)
      requires Replayable(body)
      modifies this
      ensures (View(), reply) == Apply(old(View()), env, messageID, body)
    {
      hide TooOld;
      match body
      case Ready(v) => reply := Ready(env, messageID, v);
      case Beat(n) => reply := Beat(env, messageID, n);
      case SessionStatus(_, _, _, _) => reply := SessionReport(messageID, body);
      case ToolStatus(_, _, _, _, _, _, _, _, _) => reply := ToolReport(messageID, body);
      case ProtocolError => reply := Accepted(Acknowledgement(messageID));
      case McpTools(_, _) => reply := Accepted(Acknowledgement(messageID));
    }

    /** serve, from the replay ledger on. */
    method Serve(env: Env, messageID: string, content: string, body: Body) returns (reply: Reply)
      requires Replayable(body)
      modifies this
      ensures (View(), reply) == Connections.Serve(old(View()), env, messageID, content, body)
    {
      hide Apply;
      if messageID in ledger {
        var entry := ledger[messageID];
        if entry.endpoint != EndpointOf(body) || entry.content != content {
          return Refused(MessageConflict);
        }
        return Replayed(entry.answer);
      }
      reply := ApplyBody(env, messageID, body);
      if reply.Accepted? {
        ledger := ledger[messageID := LedgerEntry(EndpointOf(body), content, reply.answer)];
      }
    }
  }
}
