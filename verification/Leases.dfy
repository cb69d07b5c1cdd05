/**
 Leases over every run: one live connection an instance, no unexpired one replaced, and
 exactly when a lease changes and when it moves earlier.
 */
module Leases {
  import opened Options
  import opened Connections
  import opened ConnectionLaws
  import opened Servers
  import opened ServerLaws
  import opened ServerLinks
  import opened ServerMoves
  import opened ServerRuns
  import opened Renewals
  import opened Reports

  /**
   In every reachable state a connection is not ended exactly when its instance's live
   pointer names it, and its lease ends at most GrantMax from now.
   */
  lemma LiveExactlyWhenNamed(states: seq<Server>, requests: seq<Request>, i: nat, id: nat)
    requires Run(states, requests) && i < |states| && id in states[i].connections
    ensures var s, c := states[i], states[i].connections[id];
            && c.instance in s.live && (!c.ended <==> s.live[c.instance] == Some(id))
            && c.leaseUntil <= s.now + GRANT_MAX
  {
    hide Step, Fresh, Sound, AllHealthy;
    RunInv(states, requests, i);
    assert LinkOK(states[i], id, states[i].connections[id]);
  }

  /** An events request that opens a new connection finds no unexpired one of its instance. */
  lemma NoUnexpiredReplaced(s: Server, r: Request, other: nat)
    requires Inv(s) && Sound(s) && r.Events? && Step(s, r).1.Opened? && !Step(s, r).1.resumed
    requires other in s.connections && s.connections[other].instance == r.instanceID && !s.connections[other].ended
    ensures s.connections[other].leaseUntil <= s.now
    ensures Step(s, r).1.id !in s.connections
  {
    hide Healthy, AttachTo, Commit;
    JudgedLive(s, r.key, Some((r.instanceID, r.credentialID)));
    var used := Authenticate(s, r.key, Some((r.instanceID, r.credentialID))).credentialID;
    assert LinkOK(s, other, s.connections[other]);
    CurrentIsLive(s, r.instanceID);
    LiveLinked(s, r.instanceID);
    AllocateLinkedBut(Live(s, r.instanceID).0, used);
  }

  /** A resumed stream belongs to the connection its request names, whose lease still lasts. */
  lemma ResumeNamesLive(s: Server, r: Request)
    requires Inv(s) && Sound(s) && r.Events? && Step(s, r).1.Opened? && Step(s, r).1.resumed
    ensures r.previous == Some(Step(s, r).1.id) && r.resume
    ensures Step(s, r).1.id in s.connections && s.now < s.connections[Step(s, r).1.id].leaseUntil
    ensures s.connections[Step(s, r).1.id].instance == r.instanceID
  {
  }

  /** Request r is a ready or heartbeat of connection id, first accepted now. */
  ghost predicate FirstAccepted(s: Server, r: Request, id: nat)
    requires Sound(s)
  {
    && r.Post? && r.connectionID == id && (r.body.Ready? || r.body.Beat?)
    && Step(s, r).1.Answered? && Step(s, r).1.reply.Accepted?
  }

  /** Request r reaches connection id: it is authenticated for its instance, and the connection is live. */
  ghost predicate Reaches(s: Server, r: Request, id: nat) {
    && r.Post? && r.connectionID == id && r.messageID != "" && id in s.connections
    && Authenticate(s, r.key, None).Authenticated?
    && s.credentials[Authenticate(s, r.key, None).credentialID].instanceID == s.connections[id].instance
    && !s.connections[id].ended && s.now < s.connections[id].leaseUntil
  }

  /** What a first ready or a later heartbeat must be, for the connection as it is. */
  predicate Renewable(c: Conn, env: Env, messageID: string, body: Body) {
    && messageID !in c.ledger && env.now < env.expiresAt
    && match body
       case Ready(v) => c.readyMessageID == "" && !TooOld(v, env.minVersion)
       case Beat(n) => c.readyAccepted && n > c.acceptedHeartbeatSeq
       case _ => false
  }

  /**
   What makes request r renew the lease of connection id, before it is served: it reaches the
   connection with a new message, its credential has time left, and it is the first ready, of a
   version not too old, or a heartbeat above the last one accepted.
   */
  ghost predicate Renews(s: Server, r: Request, id: nat)
    requires Sound(s)
  {
    Reaches(s, r, id) && Renewable(s.connections[id], EnvOf(s, s.connections[id]), r.messageID, r.body)
  }

  lemma AnsweredExactly(s: Server, r: Request, id: nat)
    requires Inv(s) && Sound(s) && r.Post? && r.connectionID == id && Replayable(r.body)
    ensures Step(s, r).1.Answered? <==> Reaches(s, r, id)
  {
    hide ServeOn, KeyOwner, Healthy;
    if id in s.connections {
      assert LinkOK(s, id, s.connections[id]);
      CurrentIsLive(s, s.connections[id].instance);
    }
  }

  lemma AcceptedExactly(c: Conn, env: Env, messageID: string, content: string, body: Body)
    requires Replayable(body) && (body.Ready? || body.Beat?) && messageID != ""
    ensures Serve(c, env, messageID, content, body).1.Accepted? <==> Renewable(c, env, messageID, body)
  {
    hide TooOld, Release;
  }

  /** A ready or heartbeat is accepted if and only if it renews, by what the server is before it. */
  lemma RenewsExactly(s: Server, r: Request, id: nat)
    requires Inv(s) && Sound(s)
    ensures Renews(s, r, id) <==> FirstAccepted(s, r, id)
  {
    hide Inv, Sound, Step, Serve, Renewable, Reaches;
    if r.Post? && r.connectionID == id && (r.body.Ready? || r.body.Beat?) {
      AnsweredExactly(s, r, id);
      ReachesHere(s, r, id);
      if Reaches(s, r, id) {
        PostTouches(s, r, id);
        AcceptedExactly(s.connections[id], EnvOf(s, s.connections[id]), r.messageID, r.content, r.body);
      }
    } else {
      OthersDoNot(s, r, id);
    }
  }

  lemma ReachesHere(s: Server, r: Request, id: nat)
    ensures Reaches(s, r, id) ==> id in s.connections && r.messageID != ""
  {
  }

  lemma OthersDoNot(s: Server, r: Request, id: nat)
    requires Sound(s) && !(r.Post? && r.connectionID == id && (r.body.Ready? || r.body.Beat?))
    ensures !Renews(s, r, id)
  {
  }

  function ExpiryOf(s: Server, id: nat): Time
    requires id in s.connections && s.connections[id].credential in s.credentials
  {
    s.credentials[s.connections[id].credential].expiresAt
  }

  /**
   A lease changes exactly by a ready or heartbeat that renews it, to GrantMax from now or
   the expiry of the connection's credential if that is sooner; and it moves earlier
   exactly when that credential expires before the lease it replaces.
   */
  lemma LeaseChangesOnlyByGrant(s: Server, r: Request, id: nat)
    requires Inv(s) && Sound(s) && Fresh(s, r) && id in s.connections
    ensures id in Step(s, r).0.connections
    ensures var c, c' := s.connections[id], Step(s, r).0.connections[id];
            && c'.leaseUntil == (if Renews(s, r, id) then Min(ExpiryOf(s, id), s.now + GRANT_MAX) else c.leaseUntil)
            && (c'.leaseUntil < c.leaseUntil <==> Renews(s, r, id) && ExpiryOf(s, id) < c.leaseUntil)
  {
    hide Step, Fresh, Healthy, Continues, Reopened, LedgerStays, LogGrows, WritesUnreported, ReportsStay;
    assert LinkOK(s, id, s.connections[id]);
    RenewsExactly(s, r, id);
    hide Renews;
    StepLawful(s, r, id);
  }

  /** The connection's credential is the same in all states from i to j. */
  ghost predicate SameCredential(states: seq<Server>, i: nat, j: nat, id: nat)
    requires i <= j < |states|
  {
    id in states[i].connections && forall k :: i <= k <= j ==>
      id in states[k].connections && states[k].connections[id].credential == states[i].connections[id].credential
  }

  /** A lease within its credential's expiry never moves earlier while the credential is unchanged. */
  lemma {:induction false} LeaseNeverEarlier(states: seq<Server>, requests: seq<Request>, i: nat, j: nat, id: nat)
    requires Run(states, requests) && i <= j < |states| && SameCredential(states, i, j, id)
    requires states[i].connections[id].credential in states[i].credentials
    requires states[i].connections[id].leaseUntil <= ExpiryOf(states[i], id)
    ensures states[j].connections[id].credential in states[j].credentials
    ensures states[i].connections[id].leaseUntil <= states[j].connections[id].leaseUntil <= ExpiryOf(states[j], id)
    ensures ExpiryOf(states[j], id) == ExpiryOf(states[i], id)
    decreases j
  {
    hide Inv, Step, Fresh, Sound;
    CredsOverRun(states, requests, i, j, states[i].connections[id].credential);
    if i < j {
      LeaseNeverEarlier(states, requests, i, j - 1, id);
      RunInv(states, requests, j - 1);
      LeaseChangesOnlyByGrant(states[j - 1], requests[j - 1], id);
    }
  }

  /** Every lease granted is within its credential's expiry. */
  lemma GrantsWithinExpiry(s: Server, r: Request, id: nat)
    requires Inv(s) && Sound(s) && Fresh(s, r) && id in s.connections && Renews(s, r, id)
    ensures id in Step(s, r).0.connections && Step(s, r).0.connections[id].leaseUntil <= ExpiryOf(s, id)
  {
    hide Step, Fresh, Inv, Sound;
    LeaseChangesOnlyByGrant(s, r, id);
  }

  /** And so is the lease of a new connection: GrantMax from now, or the expiry of its credential if that is sooner. */
  lemma NewLeaseWithinExpiry(s: Server, r: Request)
    requires Inv(s) && Sound(s) && r.Events? && Step(s, r).1.Opened? && !Step(s, r).1.resumed
    ensures Step(s, r).1.id in Step(s, r).0.connections && r.credentialID in s.credentials
    ensures var c := Step(s, r).0.connections[Step(s, r).1.id];
            && c.credential == r.credentialID
            && c.leaseUntil == Min(s.credentials[r.credentialID].expiresAt, s.now + GRANT_MAX)
  {
    hide Inv, Sound, KeyOwner, Write, End, Offers, WriteRenewals;
  }
}
