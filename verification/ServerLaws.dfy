/**
 What every request keeps of the whole server, and how it may move each connection.
 */
module ServerLaws {
  import opened Options
  import opened Connections
  import opened ConnectionLaws
  import opened Servers

  // ---------- the invariant ----------

  /** How a connection hangs together with the clock, its credential and its instance. */
  ghost predicate LinkOK(s: Server, id: nat, c: Conn) {
    && id <= s.lastID
    && c.leaseUntil <= s.now + GRANT_MAX
    && c.credential in s.credentials
    && s.credentials[c.credential].instanceID == c.instance
    && !s.credentials[c.credential].state.Pending?
    && c.instance in s.live
    && (!c.ended <==> s.live[c.instance] == Some(id))
  }

  ghost predicate LinksOK(s: Server) { forall id :: id in s.connections ==> LinkOK(s, id, s.connections[id]) }

  ghost predicate Healthy(c: Conn) { Good(c) && (c.readyAccepted ==> c.readyMessageID != "") }

  ghost predicate AllHealthy(s: Server) { forall id :: id in s.connections ==> Healthy(s.connections[id]) }

  ghost predicate LiveOK(s: Server) {
    forall i :: i in s.live && s.live[i].Some? ==>
      s.live[i].value in s.connections && s.connections[s.live[i].value].instance == i
  }

  /** A credential belongs to a known instance and replaces another one that is no longer pending. */
  ghost predicate CredsOK(creds: map<string, Cred>, instances: set<string>) {
    forall k :: k in creds ==>
      && creds[k].instanceID in instances
      && (creds[k].predecessor.Some? ==>
          && creds[k].predecessor.value in creds && creds[k].predecessor.value != k
          && !creds[creds[k].predecessor.value].state.Pending?)
  }

  ghost predicate KeysDistinct(creds: map<string, Cred>) {
    forall a, b :: a in creds && b in creds && creds[a].key == creds[b].key && creds[a].key != "" ==> a == b
  }

  ghost predicate Linked(s: Server) {
    LinksOK(s) && LiveOK(s) && CredsOK(s.credentials, s.live.Keys) && KeysDistinct(s.credentials)
  }

  ghost predicate Inv(s: Server) { Linked(s) && AllHealthy(s) }

  lemma InvSound(s: Server)
    requires Inv(s)
    ensures Sound(s)
  {
  }

  /** The assumptions on a request: new instruction IDs, connection keys no two credentials share. */
  ghost predicate Fresh(s: Server, r: Request) {
    match r
    case Ask(instanceID, i) =>
      var active := Live(s, instanceID).1;
      active.Some? ==> i.messageID !in Asked(s.connections[active.value].work)
    case AddCredential(_, given, _) =>
      given.key == "" || forall k :: k in s.credentials ==> s.credentials[k].key != given.key
    case Post(_, _, _, _, body) =>
      body.FetchCredential? ==> body.freshKey != "" && forall k :: k in s.credentials ==> s.credentials[k].key != body.freshKey
    case _ => true
  }

  // ---------- how one connection may move in one step ----------

  ghost predicate LedgerStays(c: Conn, c': Conn) {
    forall m :: m in c.ledger ==> m in c'.ledger && c'.ledger[m] == c.ledger[m]
  }

  /** A new current stream starts with exactly the instructions unreported when it opened. */
  ghost predicate Reopened(c: Conn, c': Conn) {
    && c'.work == c.work
    && c'.out.streams == c.out.streams + 1
    && c'.out.stream.Some? && c'.out.stream.value.number == c'.out.streams
    && (Open(c'.out) ==> Carried(c'.out) == Keep(c.work.order, UnreportedSet(c.work)))
  }

  /** Why a step changed a connection's order asked or its lease, if it did. */
  datatype Reason = Nothing | Asking(messageID: string) | Granting(lease: Time)

  ghost predicate MovesFor(c: Conn, c': Conn, why: Reason) {
    && c.instance == c'.instance
    && (c.ended ==> c' == c)
    && LedgerStays(c, c')
    && c.work.order <= c'.work.order
    && ReportsStay(c.work, c'.work)
    && LogGrows(c.out.log, c'.out.log) && WritesUnreported(c.work, c.out.log, c'.out.log)
    && Asked(c'.work) == (if why.Asking? then Asked(c.work) + [why.messageID] else Asked(c.work))
    && c'.leaseUntil == (if why.Granting? then why.lease else c.leaseUntil)
    && (Continues(c, c') || Reopened(c, c'))
  }

  ghost predicate Moves(c: Conn, c': Conn) { MovesFor(c, c', Nothing) }

  lemma Still(c: Conn)
    ensures Moves(c, c)
  {
  }

  lemma EndMoves(c: Conn)
    requires Healthy(c)
    ensures Healthy(End(c)) && Moves(c, End(c))
  {
  }

  /** Any change of the stream side that writes no instruction, on a connection that has not ended. */
  lemma QuietMoves(c: Conn, c': Conn)
    requires Healthy(c) && !c.ended && Quiet(c.out, c'.out) && (c'.out.stream.Some? ==> !c'.ended)
    requires c' == c.(out := c'.out, ended := c'.ended, credential := c'.credential)
    ensures Healthy(c') && Moves(c, c')
  {
  }

  lemma TickMoves(c: Conn, now: Time, maxStreamAge: int)
    requires Healthy(c)
    ensures var c' := Tick(c, now, maxStreamAge);
            Healthy(c') && Moves(c, c') && c' == c.(out := c'.out, ended := c'.ended) && (c.ended ==> c' == c)
  {
    TickKeeps(c, now, maxStreamAge);
  }

  lemma IssueMoves(c: Conn, i: Instruction)
    requires Healthy(c) && !c.ended && i.messageID !in Asked(c.work) && !i.reported
    ensures Healthy(Issue(c, i)) && MovesFor(c, Issue(c, i), Asking(i.messageID))
  {
    IssueKeeps(c, i);
  }

  lemma {:induction false} RenewalsKeepStream(out: Outbox, offers: seq<string>)
    requires out.stream.Some?
    ensures WriteRenewals(out, offers).stream.Some?
    decreases |offers|
  {
    if offers != [] {
      RenewalsKeepStream(Write(out, Renew(offers[0])), offers[1..]);
    }
  }

  lemma AttachReopens(c: Conn, now: Time, resumed: bool)
    requires Healthy(c) && !c.ended && (!resumed ==> c.work.order == [])
    ensures var c' := Attach(c, now, resumed); Healthy(c') && Moves(c, c') && Reopened(c, c')
  {
    AttachKeeps(c, now, resumed);
  }

  /** What is written after the instructions of a new stream. */
  lemma QuietAfterReopening(c: Conn, c1: Conn, c': Conn)
    requires !c.ended && !c1.ended && Moves(c, c1) && Reopened(c, c1) && c' == c1.(out := c'.out) && Quiet(c1.out, c'.out)
    requires c'.out.stream.Some?
    ensures Moves(c, c') && Reopened(c, c')
  {
  }

  lemma AttachMoves(c: Conn, now: Time, resumed: bool, offers: seq<string>)
    requires Healthy(c) && !c.ended && (!resumed ==> c.work.order == [])
    ensures var c1 := Attach(c, now, resumed);
            var c' := c1.(out := WriteRenewals(c1.out, offers));
            Healthy(c') && Moves(c, c') && Reopened(c, c')
  {
    AttachReopens(c, now, resumed);
    var c1 := Attach(c, now, resumed);
    var c' := c1.(out := WriteRenewals(c1.out, offers));
    RenewalsQuiet(c1.out, offers);
    RenewalsKeepStream(c1.out, offers);
    QuietMoves(c1, c');
    QuietAfterReopening(c, c1, c');
  }

  /** Which credential a connection uses matters to none of this. */
  lemma CredentialMoves(c: Conn, credential: string, c': Conn)
    requires !c.ended && Moves(c.(credential := credential), c')
    ensures Moves(c, c') && (Reopened(c.(credential := credential), c') ==> Reopened(c, c'))
  {
  }

  // ---------- upstream messages ----------

  /** A ready or heartbeat that is first accepted grants a lease, within GrantMax and the credential's expiry. */
  function Grants(env: Env, body: Body, reply: Reply): Reason {
    if reply.Accepted? && (body.Ready? || body.Beat?) then Granting(Min(env.expiresAt, env.now + GRANT_MAX)) else Nothing
  }

  lemma ServeMoves(c: Conn, env: Env, messageID: string, content: string, body: Body)
    requires Healthy(c) && !c.ended && Replayable(body) && messageID != ""
    ensures var (c', reply) := Serve(c, env, messageID, content, body);
            Healthy(c') && MovesFor(c, c', Grants(env, body, reply))
  {
    hide TooOld, ApplyReady, ApplyHeartbeat, ApplySessionStatus, ApplyToolStatus;
    if messageID in c.ledger {
      Still(c);
    } else {
      var c1 := Apply(c, env, messageID, body).0;
      var c' := Serve(c, env, messageID, content, body).0;
      ApplyKeeps(c, env, messageID, body);
      ApplyTies(c, env, messageID, body);
      assert c'.work == c1.work && c'.out == c1.out;
    }
  }

  lemma {:induction false} ReleaseTies(c: Conn)
    ensures var c' := Release(c); c' == c.(work := c'.work, out := c'.out)
    decreases |c.work.queue|
  {
    if c.work.queue != [] && MayIssue(c) {
      ReleaseTies(ReleaseFront(c));
    }
  }

  /** What an endpoint leaves alone; a lease it grants runs from now, within GrantMax and the credential's expiry. */
  lemma ApplyTies(c: Conn, env: Env, messageID: string, body: Body)
    requires Replayable(body)
    ensures var (c', reply) := Apply(c, env, messageID, body);
            && c'.instance == c.instance && c'.ended == c.ended && c'.credential == c.credential && c'.ledger == c.ledger
            && c'.leaseUntil == (if Grants(env, body, reply).Granting? then Grants(env, body, reply).lease else c.leaseUntil)
            && (c'.readyMessageID == c.readyMessageID || c'.readyMessageID == messageID)
            && (c'.readyAccepted ==> c.readyAccepted || c'.readyMessageID == messageID)
  {
    hide TooOld;
    match body
    case Ready(v) => ReleaseTies(Admit(c, env, messageID));
    case SessionStatus(_, _, _, _) =>
      if body.requestID in c.work.issued {
        ReleaseTies(c.(work := MarkReported(c.work, body.requestID).(firstReportStored := true)));
      }
    case _ =>
  }
}
