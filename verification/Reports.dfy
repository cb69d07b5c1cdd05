/**
 What upstream messages do to a connection over a run: which reports are final, that ready
 is accepted once and heartbeats in increasing order, and that a refused message leaves no
 trace but a refused version.
 */
module Reports {
  import opened Options
  import opened Connections
  import opened ConnectionLaws
  import opened Servers
  import opened ServerLaws
  import opened ServerLinks
  import opened ServerMoves
  import opened ServerRuns
  import opened Replay

  // ---------- what a step may touch ----------

  /** A step that is no upstream message leaves the handshake alone, and the instructions unless one is asked for. */
  ghost predicate LeavesAlone(r: Request, c: Conn, c': Conn) {
    && c' == c.(out := c'.out, ended := c'.ended, credential := c'.credential, work := c'.work)
    && (!r.Ask? ==> c'.work == c.work)
  }

  lemma LiveLeaves(s: Server, instanceID: string, id: nat)
    requires id in s.connections
    ensures var s' := Live(s, instanceID).0;
            id in s'.connections && (s'.connections[id] == s.connections[id] || s'.connections[id] == End(s.connections[id]))
            && s'.lastID == s.lastID && s'.credentials == s.credentials && s'.connections.Keys == s.connections.Keys
  {
  }

  lemma ConnectLeaves(s: Server, used: string, previous: Option<nat>, resume: bool, visits: seq<string>, id: nat)
    requires Sound(s) && used in s.credentials && id in s.connections && id <= s.lastID
    ensures var s' := ConnectAs(s, used, previous, resume, visits).0;
            && id in s'.connections
            && s'.connections[id] == s.connections[id].(
                 out := s'.connections[id].out, ended := s'.connections[id].ended, credential := s'.connections[id].credential)
  {
    hide Live, WriteRenewals, Offers;
    LiveLeaves(s, s.credentials[used].instanceID, id);
  }

  lemma OfferLeaves(s: Server, pending: string, id: nat)
    requires pending in s.credentials && id in s.connections
    ensures var s' := OfferRenewal(s, pending);
            && id in s'.connections
            && s'.connections[id] == s.connections[id].(out := s'.connections[id].out, ended := s'.connections[id].ended)
  {
    hide Live, WriteRenewals;
    LiveLeaves(s, s.credentials[pending].instanceID, id);
  }

  lemma TickLeaves(c: Conn, now: Time, maxStreamAge: int)
    ensures var c' := Tick(c, now, maxStreamAge); c' == c.(out := c'.out, ended := c'.ended)
  {
  }

  lemma EventsLeave(s: Server, r: Request, id: nat)
    requires Sound(s) && r.Events? && id in s.connections && id <= s.lastID
    ensures id in Step(s, r).0.connections && LeavesAlone(r, s.connections[id], Step(s, r).0.connections[id])
  {
    hide ConnectAs, KeyOwner, Sound;
    var auth := Authenticate(s, r.key, Some((r.instanceID, r.credentialID)));
    if auth.Authenticated? {
      ConnectLeaves(s, auth.credentialID, r.previous, r.resume, r.visits, id);
    }
  }

  lemma AddLeaves(s: Server, r: Request, id: nat)
    requires Sound(s) && r.AddCredential? && id in s.connections
    ensures id in Step(s, r).0.connections && LeavesAlone(r, s.connections[id], Step(s, r).0.connections[id])
  {
    hide OfferRenewal, Sound;
    var (s1, outcome) := Add(s, r.credentialID, r.given);
    if !outcome.ControlError? && r.renew && r.given.state.Pending? {
      OfferLeaves(s1, r.credentialID, id);
    }
  }

  lemma AskLeaves(s: Server, r: Request, id: nat)
    requires Sound(s) && r.Ask? && id in s.connections
    ensures id in Step(s, r).0.connections && LeavesAlone(r, s.connections[id], Step(s, r).0.connections[id])
  {
    hide Live, Sound, Write;
    LiveLeaves(s, r.instanceID, id);
  }

  lemma BreakLeaves(s: Server, r: Request, id: nat)
    requires Sound(s) && (r.BreakStream? || r.Look?) && id in s.connections
    ensures id in Step(s, r).0.connections && LeavesAlone(r, s.connections[id], Step(s, r).0.connections[id])
  {
    hide Live, Sound;
    LiveLeaves(s, r.instanceID, id);
  }

  lemma AdvanceLeaves(s: Server, r: Request, id: nat)
    requires Sound(s) && r.Advance? && id in s.connections
    ensures id in Step(s, r).0.connections && LeavesAlone(r, s.connections[id], Step(s, r).0.connections[id])
  {
    hide Tick, Sound;
    TickLeaves(s.connections[id], s.now + r.step, s.maxStreamAge);
  }

  lemma OthersLeaveAlone(s: Server, r: Request, id: nat)
    requires Inv(s) && Sound(s) && id in s.connections && !r.Post?
    ensures id in Step(s, r).0.connections && LeavesAlone(r, s.connections[id], Step(s, r).0.connections[id])
  {
    hide Inv, Sound, LeavesAlone, EventsStep, AddStep, AskStep, BreakStep, AdvanceStep, Live;
    InRange(s, id);
    match r
    case Events(_, _, _, _, _, _) => EventsLeave(s, r, id);
    case AddCredential(_, _, _) => AddLeaves(s, r, id);
    case Ask(_, _) => AskLeaves(s, r, id);
    case BreakStream(_) => BreakLeaves(s, r, id);
    case Look(_) => BreakLeaves(s, r, id);
    case Advance(_) => AdvanceLeaves(s, r, id);
    case _ => ControlLeaves(s, r, id);
  }

  lemma ControlLeaves(s: Server, r: Request, id: nat)
    requires Sound(s) && (r.SetState? || r.Lost? || r.Flush?) && id in s.connections
    ensures id in Step(s, r).0.connections && LeavesAlone(r, s.connections[id], Step(s, r).0.connections[id])
  {
    hide Sound, EventsStep, PostStep, AddStep, AskStep, BreakStep, AdvanceStep, Live;
  }

  lemma InRange(s: Server, id: nat)
    requires Inv(s) && id in s.connections
    ensures id <= s.lastID && s.connections[id].credential in s.credentials
  {
    hide AllHealthy, LiveOK, CredsOK, KeysDistinct;
    assert LinkOK(s, id, s.connections[id]);
  }

  /** An upstream message reaches one connection, the live one it names, and no other but an expired one it ends. */
  lemma PostTouches(s: Server, r: Request, id: nat)
    requires Inv(s) && Sound(s) && id in s.connections && r.Post?
    ensures id in Step(s, r).0.connections
    ensures var c, c' := s.connections[id], Step(s, r).0.connections[id];
            if Step(s, r).1.Answered? && Replayable(r.body) && r.connectionID == id then
              && r.messageID != "" && c.credential in s.credentials
              && (c', Step(s, r).1.reply) == Serve(c, EnvOf(s, c), r.messageID, r.content, r.body)
            else c' == c || c' == End(c)
  {
    hide Inv, Live, KeyOwner, Serve, Sound;
    InRange(s, id);
    var auth := Authenticate(s, r.key, None);
    if auth.Authenticated? {
      LiveLeaves(s, s.credentials[auth.credentialID].instanceID, id);
    }
  }

  // ---------- final reports ----------

  /** Request r is the first accepted report of connection id that answers instruction m and ends it. */
  ghost predicate FinalReport(s: Server, r: Request, id: nat, m: string)
    requires Sound(s)
  {
    && r.Post? && TakesEffect(s, r, id, r.messageID) && id in s.connections && m in s.connections[id].work.issued
    && ((r.body.SessionStatus? && r.body.requestID == m) ||
        (r.body.ToolStatus? && r.body.requestID == m && (r.body.running ==> !r.body.execution)))
  }

  /** What is staged is under other IDs than what is issued, and not reported. */
  ghost predicate Staged(w: Work) {
    && (forall i :: i in w.queue ==> !i.reported && i.messageID !in w.issued)
    && (forall j, k :: 0 <= j < k < |w.queue| ==> w.queue[j].messageID != w.queue[k].messageID)
  }

  lemma GoodIsStaged(c: Conn)
    requires Good(c)
    ensures Staged(c.work)
  {
    var w, asked := c.work, Asked(c.work);
    assert forall k :: 0 <= k < |w.queue| ==> asked[|w.order| + k] == w.queue[k].messageID;
    forall i | i in w.queue
      ensures i.messageID !in w.issued
    {
      var k :| 0 <= k < |w.queue| && w.queue[k] == i;
      assert forall j :: 0 <= j < |w.order| ==> w.order[j] == asked[j] != asked[|w.order| + k];
    }
  }

  lemma {:induction false} ReleaseReports(c: Conn, m: string)
    requires Staged(c.work)
    ensures Reported(Release(c).work, m) <==> Reported(c.work, m)
    decreases |c.work.queue|
  {
    if c.work.queue != [] && MayIssue(c) {
      var next := ReleaseFront(c);
      assert c.work.queue[0] in c.work.queue;
      assert forall i :: i in next.work.queue ==> i in c.work.queue;
      ReleaseReports(next, m);
    }
  }

  lemma SessionReports(c: Conn, messageID: string, body: Body, m: string)
    requires Staged(c.work) && body.SessionStatus?
    ensures var (c', reply) := ApplySessionStatus(c, messageID, body);
            Reported(c'.work, m) <==> Reported(c.work, m) || (reply.Accepted? && m in c.work.issued && body.requestID == m)
  {
    hide AnswersSession, Release;
    if body.requestID in c.work.issued {
      ReleaseReports(c.(work := MarkReported(c.work, body.requestID).(firstReportStored := true)), m);
    }
  }

  lemma ServeReports(c: Conn, env: Env, messageID: string, content: string, body: Body, m: string)
    requires Good(c) && Replayable(body)
    ensures var (c', reply) := Serve(c, env, messageID, content, body);
            Reported(c'.work, m) <==>
            || Reported(c.work, m)
            || (reply.Accepted? && m in c.work.issued && body.SessionStatus? && body.requestID == m)
            || (reply.Accepted? && m in c.work.issued && body.ToolStatus? && body.requestID == m && (body.running ==> !body.execution))
  {
    GoodIsStaged(c);
    hide Good, TooOld, ApplySessionStatus, AnswersTool, Release;
    if messageID !in c.ledger {
      match body
      case Ready(v) => ReleaseReports(Admit(c, env, messageID), m);
      case SessionStatus(_, _, _, _) => SessionReports(c, messageID, body, m);
      case _ =>
    }
  }

  lemma IssueReports(c: Conn, i: Instruction, m: string)
    requires Good(c) && i.messageID !in Asked(c.work) && !i.reported
    ensures Reported(Issue(c, i).work, m) <==> Reported(c.work, m)
  {
    AskedHasIssued(c);
    hide Good, Write;
  }

  lemma AskReports(s: Server, r: Request, id: nat, m: string)
    requires Inv(s) && Sound(s) && Fresh(s, r) && r.Ask? && id in s.connections
    ensures id in Step(s, r).0.connections
    ensures Reported(Step(s, r).0.connections[id].work, m) <==> Reported(s.connections[id].work, m)
  {
    hide Inv, Sound, Good, Live, Issue;
    HealthyHere(s, id);
    LiveLeaves(s, r.instanceID, id);
    if Live(s, r.instanceID).1 == Some(id) {
      IssueReports(s.connections[id], r.instruction.(reported := false), m);
    }
  }

  lemma HealthyHere(s: Server, id: nat)
    requires Inv(s) && id in s.connections
    ensures Good(s.connections[id])
  {
    hide Linked, Good;
    assert Healthy(s.connections[id]);
  }

  lemma AskedHasIssued(c: Conn)
    requires Good(c)
    ensures forall m :: m in c.work.issued ==> m in Asked(c.work)
  {
  }

  /** In any one step an instruction becomes reported exactly by a final report, and nothing makes it unreported. */
  lemma ReportedExactly(s: Server, r: Request, id: nat, m: string)
    requires Inv(s) && Sound(s) && Fresh(s, r) && id in s.connections
    ensures id in Step(s, r).0.connections
    ensures Reported(Step(s, r).0.connections[id].work, m) <==> Reported(s.connections[id].work, m) || FinalReport(s, r, id, m)
  {
    hide Inv, Sound, Fresh, Step, Good, Serve;
    if r.Post? {
      PostTouches(s, r, id);
      HealthyHere(s, id);
      if Step(s, r).1.Answered? && Replayable(r.body) && r.connectionID == id {
        ServeReports(s.connections[id], EnvOf(s, s.connections[id]), r.messageID, r.content, r.body, m);
      }
    } else if r.Ask? {
      AskReports(s, r, id, m);
    } else {
      OthersLeaveAlone(s, r, id);
    }
  }

  /** A connection that is new has nothing reported on it. */
  lemma NewUnreported(s: Server, r: Request, id: nat, m: string)
    requires Inv(s) && Sound(s) && Fresh(s, r) && id !in s.connections && id in Step(s, r).0.connections
    ensures !Reported(Step(s, r).0.connections[id].work, m)
  {
    hide Inv, Sound, Fresh, Step;
    NewWork(s, r, id);
  }

  /** Over a whole run an instruction is reported if and only if a final report of it was accepted. */
  lemma {:induction false} ReportedIffFinal(states: seq<Server>, requests: seq<Request>, n: nat, id: nat, m: string)
    requires Run(states, requests) && states[0].connections == map[] && n < |states|
    ensures forall k :: 0 <= k < n ==> Sound(states[k])
    ensures (id in states[n].connections && Reported(states[n].connections[id].work, m)) <==>
            exists k :: 0 <= k < n && FinalReport(states[k], requests[k], id, m)
  {
    hide Inv, Sound, Fresh, Step, FinalReport;
    if n > 0 {
      ReportedIffFinal(states, requests, n - 1, id, m);
      RunInv(states, requests, n - 1);
      var s, r := states[n - 1], requests[n - 1];
      if id in s.connections {
        ReportedExactly(s, r, id, m);
      } else {
        NotFinal(s, r, id, m);
        if id in states[n].connections {
          NewUnreported(s, r, id, m);
        }
      }
    }
  }

  lemma NotFinal(s: Server, r: Request, id: nat, m: string)
    requires Sound(s) && id !in s.connections
    ensures !FinalReport(s, r, id, m)
  {
  }

  // ---------- the handshake ----------

  /** Ready is decided once, and the accepted heartbeat number only grows. */
  ghost predicate Handshake(c: Conn, c': Conn) {
    && (c.readyMessageID != "" ==>
          c'.readyMessageID == c.readyMessageID && c'.readyAccepted == c.readyAccepted && c'.readyRefused == c.readyRefused)
    && c.acceptedHeartbeatSeq <= c'.acceptedHeartbeatSeq
  }

  lemma ServeHandshake(c: Conn, env: Env, messageID: string, content: string, body: Body)
    requires Replayable(body) && messageID != ""
    ensures var (c', reply) := Serve(c, env, messageID, content, body);
            && Handshake(c, c')
            && (reply.Accepted? && body.Ready? ==> c.readyMessageID == "" && c'.readyMessageID == messageID && c'.readyAccepted)
            && (reply.Accepted? && body.Beat? ==> c.acceptedHeartbeatSeq < body.sequence == c'.acceptedHeartbeatSeq)
  {
    hide TooOld, AnswersSession, AnswersTool;
    if messageID !in c.ledger {
      match body
      case Ready(v) => ReleaseTies(Admit(c, env, messageID));
      case SessionStatus(_, _, _, _) =>
        if body.requestID in c.work.issued {
          ReleaseTies(c.(work := MarkReported(c.work, body.requestID).(firstReportStored := true)));
        }
      case _ =>
    }
  }

  lemma StepHandshake(s: Server, r: Request, id: nat)
    requires Inv(s) && Sound(s) && id in s.connections
    ensures id in Step(s, r).0.connections && Handshake(s.connections[id], Step(s, r).0.connections[id])
  {
    hide Inv, Sound, Step, Serve;
    if r.Post? {
      PostTouches(s, r, id);
      if Step(s, r).1.Answered? && Replayable(r.body) && r.connectionID == id {
        ServeHandshake(s.connections[id], EnvOf(s, s.connections[id]), r.messageID, r.content, r.body);
      }
    } else {
      OthersLeaveAlone(s, r, id);
    }
  }

  lemma {:induction false} HandshakeOverRun(states: seq<Server>, requests: seq<Request>, i: nat, j: nat, id: nat)
    requires Run(states, requests) && i <= j < |states| && id in states[i].connections
    ensures id in states[j].connections && Handshake(states[i].connections[id], states[j].connections[id])
    decreases j
  {
    hide Inv, Sound, Fresh, Step;
    if i < j {
      HandshakeOverRun(states, requests, i, j - 1, id);
      RunInv(states, requests, j - 1);
      StepHandshake(states[j - 1], requests[j - 1], id);
    }
  }

  lemma AcceptedServed(s: Server, r: Request, id: nat)
    requires Inv(s) && Sound(s) && r.Post? && TakesEffect(s, r, id, r.messageID)
    ensures id in s.connections && id in Step(s, r).0.connections
    ensures var c, c' := s.connections[id], Step(s, r).0.connections[id];
            && Handshake(c, c')
            && (r.body.Ready? ==> c.readyMessageID == "" && c'.readyMessageID != "")
            && (r.body.Beat? ==> c.acceptedHeartbeatSeq < r.body.sequence == c'.acceptedHeartbeatSeq)
  {
    EffectIsRecorded(s, r, id, r.messageID);
    hide Inv, Sound, Step, Serve;
    PostTouches(s, r, id);
    ServeHandshake(s.connections[id], EnvOf(s, s.connections[id]), r.messageID, r.content, r.body);
  }

  /** Over any run a connection's ready is accepted at most once, and accepted heartbeats have increasing numbers. */
  lemma AcceptedInOrder(states: seq<Server>, requests: seq<Request>, i: nat, j: nat, id: nat)
    requires Run(states, requests) && i < j < |requests| && requests[i].Post? && requests[j].Post?
    requires TakesEffect(states[i], requests[i], id, requests[i].messageID)
    requires TakesEffect(states[j], requests[j], id, requests[j].messageID)
    ensures !(requests[i].body.Ready? && requests[j].body.Ready?)
    ensures requests[i].body.Beat? && requests[j].body.Beat? ==> requests[i].body.sequence < requests[j].body.sequence
  {
    hide Inv, Sound, Fresh, Step, TakesEffect;
    RunInv(states, requests, i);
    RunInv(states, requests, j);
    AcceptedServed(states[i], requests[i], id);
    AcceptedServed(states[j], requests[j], id);
    HandshakeOverRun(states, requests, i + 1, j, id);
  }

  // ---------- refusals ----------

  /** A message that is refused leaves its connection as it is, save that a ready of too old a version is remembered. */
  lemma RefusedLeavesNoTrace(s: Server, r: Request, id: nat)
    requires Inv(s) && Sound(s) && id in s.connections && r.Post? && Step(s, r).1.Answered? && Step(s, r).1.reply.Refused?
    requires r.connectionID == id && Replayable(r.body)
    ensures id in Step(s, r).0.connections
    ensures var c, c' := s.connections[id], Step(s, r).0.connections[id];
            c' == c || (r.body.Ready? && Step(s, r).1.reply.code == CliUpgradeRequired && c.readyMessageID == "" &&
                        c' == c.(readyMessageID := r.messageID, readyRefused := true))
  {
    hide Inv, Sound, Step, Serve;
    PostTouches(s, r, id);
    RefusedServed(s.connections[id], EnvOf(s, s.connections[id]), r.messageID, r.content, r.body);
  }

  lemma RefusedServed(c: Conn, env: Env, messageID: string, content: string, body: Body)
    requires Replayable(body)
    ensures var (c', reply) := Serve(c, env, messageID, content, body);
            reply.Refused? ==>
              c' == c || (body.Ready? && reply.code == CliUpgradeRequired && c.readyMessageID == "" &&
                          c' == c.(readyMessageID := messageID, readyRefused := true))
  {
    hide TooOld, AnswersSession, AnswersTool, Release;
  }
}
