/**
 The life of a credential over every run: a pending key is fetched once, then opens the
 stream that makes it active, and a revoked or expired credential stays dead.
 */
module Renewals {
  import opened Options
  import opened Connections
  import opened Servers
  import opened ServerLaws
  import opened ServerMoves
  import opened ServerRuns

  // ---------- how one credential may change in one step ----------

  predicate Dead(c: Cred) { c.state.Revoked? || c.state.Expired? }

  ghost predicate CredMoves(a: Cred, b: Cred) {
    && b.instanceID == a.instanceID && b.expiresAt == a.expiresAt
    && (a.key != "" ==> b.key == a.key)
    && (a.fetched ==> b.fetched)
    && (Dead(a) ==> Dead(b))
    && (a.state.Active? ==> !b.state.Pending?)
    && (a.state.Pending? && b.state.Active? ==> a.fetched)
    && (b.fetched && !a.fetched ==> a.state.Pending?)
  }

  ghost predicate AllCredsMove(s: Server, s': Server) {
    forall k :: k in s.credentials ==> k in s'.credentials && CredMoves(s.credentials[k], s'.credentials[k])
  }

  lemma LiveCreds(s: Server, instanceID: string)
    ensures Live(s, instanceID).0.credentials == s.credentials
  {
  }

  lemma StillCreds(s: Server)
    ensures AllCredsMove(s, s)
  {
  }

  lemma AttachCreds(s: Server, id: nat, resumed: bool, visits: seq<string>)
    requires id in s.connections
    requires forall m :: m in s.connections[id].work.order ==> m in s.connections[id].work.issued
    ensures AttachTo(s, id, resumed, visits).credentials == s.credentials && AttachTo(s, id, resumed, visits).now == s.now
  {
  }

  lemma CommitCreds(s: Server, id: nat, used: string, instances: set<string>)
    requires id in s.connections && used in s.credentials
    requires s.credentials[used].state.Pending? ==> s.credentials[used].fetched
    ensures var s' := Commit(s, id, used);
            && AllCredsMove(s, s')
            && id in s'.connections && s'.connections[id].work == s.connections[id].work
            && used in s'.credentials && (CredsOK(s.credentials, instances) ==> !s'.credentials[used].state.Pending?)
            && (s.credentials[used].state.Pending? && CredsOK(s.credentials, instances) ==>
                && s'.credentials[used].state.Active?
                && (s.credentials[used].predecessor.Some? ==>
                    && s.credentials[used].predecessor.value in s'.credentials
                    && s'.credentials[s.credentials[used].predecessor.value].state.Revoked?))
  {
  }

  lemma ConnectCreds(s: Server, used: string, previous: Option<nat>, resume: bool, visits: seq<string>)
    requires Sound(s) && used in s.credentials && (s.credentials[used].state.Pending? ==> s.credentials[used].fetched)
    ensures var (s', outcome) := ConnectAs(s, used, previous, resume, visits);
            && AllCredsMove(s, s')
            && (outcome.Opened? && s.credentials[used].state.Pending? && CredsOK(s.credentials, s.live.Keys) ==>
                && used in s'.credentials && s'.credentials[used].state.Active?
                && (s.credentials[used].predecessor.Some? ==>
                    && s.credentials[used].predecessor.value in s'.credentials
                    && s'.credentials[s.credentials[used].predecessor.value].state.Revoked?))
  {
    hide AttachTo, Commit, CredMoves, CredsOK;
    var (s1, active) := Live(s, s.credentials[used].instanceID);
    LiveCreds(s, s.credentials[used].instanceID);
    if active.None? {
      var s2 := Allocate(s1, used);
      CommitCreds(s2, s2.lastID, used, s.live.Keys);
      AttachCreds(Commit(s2, s2.lastID, used), s2.lastID, false, visits);
    } else {
      StillCreds(s);
      CommitCreds(s, active.value, used, s.live.Keys);
      if previous == active && resume {
        AttachCreds(Commit(s, active.value, used), active.value, true, visits);
      }
    }
  }

  lemma PostCreds(s: Server, used: string, id: nat, messageID: string, content: string, body: Body)
    requires Sound(s) && used in s.credentials
    ensures AllCredsMove(s, PostAs(s, used, id, messageID, content, body).0)
  {
    hide Serve;
    LiveCreds(s, s.credentials[used].instanceID);
  }

  lemma AddCreds(s: Server, k: string, given: Cred, renew: bool)
    ensures AllCredsMove(s, AddStep(s, k, given, renew).0)
  {
  }

  lemma StepCreds(s: Server, r: Request)
    requires Sound(s)
    ensures AllCredsMove(s, Step(s, r).0)
  {
    hide ConnectAs, PostAs, AddStep, Issue;
    match r
    case Events(key, instanceID, credentialID, previous, resume, visits) =>
      var auth := Authenticate(s, key, Some((instanceID, credentialID)));
      if auth.Authenticated? {
        ConnectCreds(s, auth.credentialID, previous, resume, visits);
      }
    case Post(key, target, messageID, content, body) =>
      var auth := Authenticate(s, key, None);
      if auth.Authenticated? {
        PostCreds(s, auth.credentialID, target, messageID, content, body);
      }
    case AddCredential(k, given, renew) => AddCreds(s, k, given, renew);
    case SetState(k, revoke) =>
    case Ask(instanceID, i) =>
    case BreakStream(instanceID) =>
    case Lost(target, number) =>
    case Flush(target, number) =>
    case Advance(step) =>
    case Look(instanceID) =>
  }

  // ---------- over runs ----------

  lemma {:induction false} CredsOverRun(states: seq<Server>, requests: seq<Request>, i: nat, j: nat, k: string)
    requires Run(states, requests) && i <= j < |states| && k in states[i].credentials
    ensures k in states[j].credentials
    ensures var a, b := states[i].credentials[k], states[j].credentials[k];
            && b.instanceID == a.instanceID && b.expiresAt == a.expiresAt
            && (a.key != "" ==> b.key == a.key) && (a.fetched ==> b.fetched)
            && (Dead(a) ==> Dead(b)) && (!a.state.Pending? ==> !b.state.Pending?)
            && (a.fetched || !b.state.Active? || !a.state.Pending? || b.fetched)
    ensures states[i].now <= states[j].now
    decreases j
  {
    hide Inv, Step, Fresh, Sound;
    if i < j {
      CredsOverRun(states, requests, i, j - 1, k);
      RunInv(states, requests, j - 1);
      StepCreds(states[j - 1], requests[j - 1]);
      ClockForward(states[j - 1], requests[j - 1]);
    }
  }

  lemma ClockForward(s: Server, r: Request)
    requires Sound(s)
    ensures s.now <= Step(s, r).0.now
  {
    hide Attach, WriteRenewals, Offers, Serve, Issue, Tick;
  }

  /** The key of credential k authenticates request r in state s. */
  ghost predicate Uses(s: Server, r: Request, k: string) {
    || (r.Post? && Authenticate(s, r.key, None) == Authenticated(k))
    || (r.Events? && Authenticate(s, r.key, Some((r.instanceID, r.credentialID))) == Authenticated(k))
  }

  /** No credential that is revoked, marked expired or past its expiry ever authenticates again. */
  lemma DeadNeverAuthenticates(states: seq<Server>, requests: seq<Request>, i: nat, j: nat, k: string)
    requires Run(states, requests) && i <= j < |requests| && k in states[i].credentials
    requires Dead(states[i].credentials[k]) || states[i].now >= states[i].credentials[k].expiresAt
    ensures !Uses(states[j], requests[j], k)
  {
    hide Inv, Step, Fresh, Sound;
    CredsOverRun(states, requests, i, j, k);
  }

  /** A pending credential authenticates nothing before its fetch and only events requests after it. */
  lemma PendingOpensStreamsOnly(s: Server, r: Request, k: string)
    requires k in s.credentials && s.credentials[k].state.Pending? && Uses(s, r, k)
    ensures s.credentials[k].fetched && r.Events? && r.credentialID == k && r.instanceID == s.credentials[k].instanceID
  {
  }

  /** The first accepted events request of a pending credential makes it active and its connection's, and revokes the one it replaces. */
  lemma FirstUseCommits(s: Server, r: Request, k: string)
    requires Inv(s) && Sound(s) && r.Events? && Uses(s, r, k) && k in s.credentials && s.credentials[k].state.Pending?
    requires Step(s, r).1.Opened?
    ensures var s' := Step(s, r).0;
            && k in s'.credentials && s'.credentials[k].state.Active?
            && (s.credentials[k].predecessor.Some? ==>
                var p := s.credentials[k].predecessor.value; p in s'.credentials && s'.credentials[p].state.Revoked?)
            && Step(s, r).1.id in s'.connections && s'.connections[Step(s, r).1.id].credential == k
  {
    hide AllHealthy, ConnectAs;
    ConnectCreds(s, k, r.previous, r.resume, r.visits);
    ConnectUses(s, k, r.previous, r.resume, r.visits);
  }

  /** The connection of the stream a pending credential opens uses that credential from then on. */
  lemma ConnectUses(s: Server, used: string, previous: Option<nat>, resume: bool, visits: seq<string>)
    requires Sound(s) && used in s.credentials && s.credentials[used].state.Pending?
    ensures var (s', outcome) := ConnectAs(s, used, previous, resume, visits);
            outcome.Opened? ==> outcome.id in s'.connections && s'.connections[outcome.id].credential == used
  {
    hide WriteRenewals, Offers, Write;
  }

  /** A request that fetched the key of credential k. */
  ghost predicate Fetched(s: Server, r: Request, k: string)
    requires Sound(s)
  {
    r.Post? && r.body.FetchCredential? && r.body.credentialID == k && Step(s, r).1.Answered? && Step(s, r).1.reply.Accepted?
  }

  lemma FetchTakes(s: Server, r: Request, k: string)
    requires Sound(s) && Fetched(s, r, k)
    ensures k in s.credentials && s.credentials[k].state.Pending? && !s.credentials[k].fetched
    ensures k in Step(s, r).0.credentials && Step(s, r).0.credentials[k].fetched
    ensures Step(s, r).1.reply.answer == CredentialKey(k, Step(s, r).0.credentials[k].key, s.credentials[k].expiresAt)
  {
  }

  /** Over a whole run the key of a credential is returned by at most one fetch. */
  lemma FetchedOnce(states: seq<Server>, requests: seq<Request>, i: nat, j: nat, k: string)
    requires Run(states, requests) && i < j < |requests|
    requires Fetched(states[i], requests[i], k)
    ensures !Fetched(states[j], requests[j], k)
  {
    hide Inv, Step, Fresh, Sound, Fetched;
    FetchTakes(states[i], requests[i], k);
    CredsOverRun(states, requests, i + 1, j, k);
    if Fetched(states[j], requests[j], k) {
      FetchTakes(states[j], requests[j], k);
    }
  }
}
