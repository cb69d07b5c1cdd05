/**
 Every request moves each connection lawfully, and starts a new one healthy.
 */
module ServerMoves {
  import opened Options
  import opened Connections
  import opened ConnectionLaws
  import opened Servers
  import opened ServerLaws
  import opened ServerLinks

  /** What a step from s to s' does with connection id, if it exists. */
  ghost predicate Lawful(s: Server, s': Server, id: nat, why: Reason) {
    && (id in s.connections ==>
        id in s'.connections && Healthy(s'.connections[id]) && MovesFor(s.connections[id], s'.connections[id], why))
    && (id !in s.connections && id in s'.connections ==>
        Healthy(s'.connections[id]) && s'.connections[id].work == NO_WORK)
  }

  lemma LiveLawful(s: Server, instanceID: string, id: nat)
    requires AllHealthy(s)
    ensures Lawful(s, Live(s, instanceID).0, id, Nothing)
  {
    hide Good, MovesFor;
    if id in s.connections {
      Still(s.connections[id]);
      EndMoves(s.connections[id]);
    }
  }

  lemma SetConnLawful(s: Server, target: nat, c': Conn, why: Reason, id: nat)
    requires AllHealthy(s) && target in s.connections && Healthy(c') && MovesFor(s.connections[target], c', why)
    ensures Lawful(s, SetConn(s, target, c'), id, if id == target then why else Nothing)
  {
  }

  lemma SetOutLawful(s: Server, target: nat, out: Outbox, id: nat)
    requires AllHealthy(s) && target in s.connections && !s.connections[target].ended && Quiet(s.connections[target].out, out)
    ensures Lawful(s, SetConn(s, target, s.connections[target].(out := out)), id, Nothing)
  {
  }

  /** Two servers with the same connections. */
  lemma SameConnections(s: Server, s1: Server, s2: Server, why: Reason, id: nat)
    requires Lawful(s, s1, id, why) && s2.connections == s1.connections
    ensures Lawful(s, s2, id, why)
  {
  }

  lemma AddLawful(s: Server, k: string, given: Cred, renew: bool, id: nat)
    requires Linked(s) && AllHealthy(s)
    requires given.key == "" || forall j :: j in s.credentials ==> s.credentials[j].key != given.key
    ensures Lawful(s, AddStep(s, k, given, renew).0, id, Nothing)
  {
    hide Good, MovesFor, Lawful, Linked, Quiet;
    StillLawful(s, id);
    var (s1, outcome) := Add(s, k, given);
    SameConnections(s, s, s1, Nothing, id);
    if !outcome.ControlError? && renew && given.state.Pending? {
      AddLinked(s, k, given);
      OfferLawful(s1, k, id);
      assert Lawful(s, OfferRenewal(s1, k), id, Nothing) by { LawfulFrom(s, s1, OfferRenewal(s1, k), id); }
    }
  }

  lemma LawfulFrom(s: Server, s1: Server, s2: Server, id: nat)
    requires s1.connections == s.connections && Lawful(s1, s2, id, Nothing)
    ensures Lawful(s, s2, id, Nothing)
  {
  }

  lemma StillLawful(s: Server, id: nat)
    requires AllHealthy(s)
    ensures Lawful(s, s, id, Nothing)
  {
  }

  lemma OfferLawful(s: Server, pending: string, id: nat)
    requires Linked(s) && AllHealthy(s) && pending in s.credentials
    ensures Lawful(s, OfferRenewal(s, pending), id, Nothing)
  {
    hide Good, MovesFor, Lawful, Quiet;
    LiveLawful(s, s.credentials[pending].instanceID, id);
    var active := Live(s, s.credentials[pending].instanceID).1;
    if active.Some? {
      var c := s.connections[active.value];
      RenewalsQuiet(c.out, [pending]);
      SetOutLawful(s, active.value, WriteRenewals(c.out, [pending]), id);
      SameConnections(s, SetConn(s, active.value, c.(out := WriteRenewals(c.out, [pending]))), OfferRenewal(s, pending), Nothing, id);
    }
  }

  /** The instruction that a request asks of connection id, if any. */
  function AskedOf(s: Server, instanceID: string, i: Instruction, id: nat): Reason {
    if Live(s, instanceID).1 == Some(id) then Asking(i.messageID) else Nothing
  }

  lemma AskLawful(s: Server, instanceID: string, i: Instruction, id: nat)
    requires AllHealthy(s) && Fresh(s, Ask(instanceID, i))
    ensures Lawful(s, AskStep(s, instanceID, i).0, id, AskedOf(s, instanceID, i, id))
  {
    hide Good, MovesFor, Lawful, Asked;
    LiveLawful(s, instanceID, id);
    var active := Live(s, instanceID).1;
    if active.Some? {
      var c := s.connections[active.value];
      IssueMoves(c, i.(reported := false));
      SetConnLawful(s, active.value, Issue(c, i.(reported := false)), Asking(i.messageID), id);
    }
  }

  lemma BreakLawful(s: Server, instanceID: string, id: nat)
    requires AllHealthy(s)
    ensures Lawful(s, BreakStep(s, instanceID).0, id, Nothing)
  {
    hide Good, MovesFor, Lawful;
    LiveLawful(s, instanceID, id);
    var active := Live(s, instanceID).1;
    if active.Some? {
      SetOutLawful(s, active.value, DropStream(s.connections[active.value].out), id);
    }
  }

  lemma OnStreamLawful(s: Server, target: nat, number: nat, id: nat)
    requires AllHealthy(s)
    ensures Lawful(s, LostStep(s, target, number), id, Nothing) && Lawful(s, FlushStep(s, target, number), id, Nothing)
  {
    hide MovesFor, Lawful;
    StillLawful(s, id);
    if OnStream(s, target, number) {
      var c := s.connections[target];
      assert Healthy(c);
      assert Quiet(c.out, TakeFrame(c.out));
      SetOutLawful(s, target, DropStream(c.out), id);
      SetOutLawful(s, target, TakeFrame(c.out), id);
    }
  }

  lemma AttachToLawful(s: Server, target: nat, resumed: bool, visits: seq<string>)
    requires target in s.connections && Healthy(s.connections[target]) && !s.connections[target].ended
    requires forall m :: m in s.connections[target].work.order ==> m in s.connections[target].work.issued
    requires !resumed ==> s.connections[target].work.order == []
    ensures var s' := AttachTo(s, target, resumed, visits);
            && s'.connections == s.connections[target := s'.connections[target]]
            && Healthy(s'.connections[target]) && Moves(s.connections[target], s'.connections[target])
  {
    hide Good, MovesFor;
    var c := s.connections[target];
    if resumed {
      AttachMoves(c, s.now, true, Offers(s.credentials, target, visits));
    } else {
      AttachReopens(c, s.now, false);
    }
  }

  lemma NewConnHealthy(instance: string, credential: string, leaseUntil: Time)
    ensures Healthy(NewConn(instance, credential, leaseUntil))
  {
  }

  /** A new connection starts healthy and leaves the others alone. */
  lemma NewLawful(s: Server, used: string, visits: seq<string>)
    requires Linked(s) && used in s.credentials && s.now < s.credentials[used].expiresAt
    requires s.live[s.credentials[used].instanceID] == None
    ensures var s2 := Allocate(s, used);
            var s3 := Commit(s2, s2.lastID, used);
            && s2.lastID !in s.connections && s3.connections[s2.lastID].work.order == []
            && var s4 := AttachTo(s3, s2.lastID, false, visits);
               && s4.connections == s.connections[s2.lastID := s4.connections[s2.lastID]]
               && Healthy(s4.connections[s2.lastID]) && s4.connections[s2.lastID].work == NO_WORK
               && s4.connections[s2.lastID].leaseUntil == Min(s.credentials[used].expiresAt, s.now + GRANT_MAX)
  {
    hide Good, MovesFor, Write, OpenStream;
    AllocateLinkedBut(s, used);
    var s2 := Allocate(s, used);
    var s3 := Commit(s2, s2.lastID, used);
    CommitWork(s2, s2.lastID, used, s2.lastID);
    NewConnHealthy(s.credentials[used].instanceID, used, s.now + Min(GRANT_MAX, s.credentials[used].expiresAt - s.now));
    assert s3.connections == s2.connections;
    AttachToLawful(s3, s2.lastID, false, visits);
  }

  lemma ConnectLawful(s: Server, used: string, previous: Option<nat>, resume: bool, visits: seq<string>, id: nat)
    requires Linked(s) && Sound(s) && AllHealthy(s) && used in s.credentials && s.now < s.credentials[used].expiresAt
    ensures Lawful(s, ConnectAs(s, used, previous, resume, visits).0, id, Nothing)
  {
    hide Good, MovesFor, Attach, WriteRenewals, Offers;
    var instanceID := s.credentials[used].instanceID;
    LiveLawful(s, instanceID, id);
    LiveLinked(s, instanceID);
    var (s1, active) := Live(s, instanceID);
    if active.None? {
      NewLawful(s1, used, visits);
    } else if previous == active && resume {
      var target := active.value;
      CommitWork(s, target, used, target);
      ResumeLawful(s, target, used, visits, id);
    }
  }

  lemma ResumeLawful(s: Server, target: nat, used: string, visits: seq<string>, id: nat)
    requires Sound(s) && AllHealthy(s) && used in s.credentials && target in s.connections && !s.connections[target].ended
    ensures var s2 := Commit(s, target, used);
            && (forall m :: m in s2.connections[target].work.order ==> m in s2.connections[target].work.issued)
            && Lawful(s, AttachTo(s2, target, true, visits), id, Nothing)
  {
    hide Good, MovesFor, Attach, WriteRenewals, Offers;
    var s2 := Commit(s, target, used);
    CommitWork(s, target, used, target);
    var c, c2 := s.connections[target], s2.connections[target];
    assert c2 == c.(credential := c2.credential);
    assert Healthy(c2) by { CredentialHealthy(c, c2.credential); }
    AttachToLawful(s2, target, true, visits);
    CredentialMoves(c, c2.credential, AttachTo(s2, target, true, visits).connections[target]);
    if id in s.connections && id != target {
      CommitWork(s, target, used, id);
      Still(s.connections[id]);
    }
  }

  lemma CredentialHealthy(c: Conn, credential: string)
    requires Healthy(c)
    ensures Healthy(c.(credential := credential))
  {
  }

  /** The lease that an upstream request to target grants connection id, if any. */
  function GrantedOn(s: Server, target: nat, body: Body, reply: Reply, id: nat): Reason {
    if id == target && id in s.connections && s.connections[id].credential in s.credentials
    then Grants(EnvOf(s, s.connections[id]), body, reply) else Nothing
  }

  lemma ServeOnLawful(s: Server, target: nat, messageID: string, content: string, body: Body, id: nat)
    requires AllHealthy(s) && target in s.connections && !s.connections[target].ended && messageID != ""
    requires s.connections[target].credential in s.credentials && !body.TooLarge? && !body.Malformed?
    ensures var (s', reply) := ServeOn(s, target, messageID, content, body);
            Lawful(s, s', id, GrantedOn(s, target, body, reply, id))
  {
    hide Good, MovesFor, Lawful, Serve;
    StillLawful(s, id);
    var (s', reply) := ServeOn(s, target, messageID, content, body);
    if body.FetchCredential? {
      SameConnections(s, s, s', Nothing, id);
    } else {
      var c := s.connections[target];
      var c' := Serve(c, EnvOf(s, c), messageID, content, body).0;
      ServeMoves(c, EnvOf(s, c), messageID, content, body);
      SetConnLawful(s, target, c', Grants(EnvOf(s, c), body, reply), id);
      SameConnections(s, SetConn(s, target, c'), s', GrantedOn(s, target, body, reply, id), id);
    }
  }

  function GrantedBy(s: Server, target: nat, body: Body, outcome: Outcome, id: nat): Reason {
    if outcome.Answered? then GrantedOn(s, target, body, outcome.reply, id) else Nothing
  }

  lemma PostLawful(s: Server, used: string, target: nat, messageID: string, content: string, body: Body, id: nat)
    requires Sound(s) && AllHealthy(s) && used in s.credentials
    ensures var (s', outcome) := PostAs(s, used, target, messageID, content, body);
            Lawful(s, s', id, GrantedBy(s, target, body, outcome, id))
  {
    hide Good, MovesFor, Lawful, ServeOn, GrantedOn;
    StillLawful(s, id);
    LiveLawful(s, s.credentials[used].instanceID, id);
    if !body.TooLarge? && !body.Malformed? && messageID != "" && Live(s, s.credentials[used].instanceID).1 == Some(target) {
      ServeOnLawful(s, target, messageID, content, body, id);
    }
  }

  lemma DueLawful(s: Server, step: nat, id: nat)
    requires AllHealthy(s)
    ensures Lawful(s, DueAll(s.(now := s.now + step)), id, Nothing)
  {
    hide Good, MovesFor, Tick;
    if id in s.connections {
      TickMoves(s.connections[id], s.now + step, s.maxStreamAge);
    }
  }

  /** Why request r changes the order asked or the lease of connection id, if it does. */
  ghost function WhyOf(s: Server, r: Request, id: nat): Reason
    requires Sound(s)
  {
    match r
    case Ask(instanceID, i) => AskedOf(s, instanceID, i, id)
    case Post(_, target, _, _, body) => GrantedBy(s, target, body, Step(s, r).1, id)
    case _ => Nothing
  }

  lemma StepLawful(s: Server, r: Request, id: nat)
    requires Linked(s) && Sound(s) && AllHealthy(s) && Fresh(s, r)
    ensures Lawful(s, Step(s, r).0, id, WhyOf(s, r, id))
  {
    hide GrantedOn, AskedOf, AddStep, AskStep, BreakStep, LostStep, FlushStep, Live, DueAll, Linked, Lawful, AllHealthy, ConnectAs, PostAs, Judge;
    StillLawful(s, id);
    match r
    case Events(key, instanceID, credentialID, previous, resume, visits) =>
      var auth := Authenticate(s, key, Some((instanceID, credentialID)));
      if auth.Authenticated? {
        JudgedLive(s, key, Some((instanceID, credentialID)));
        ConnectLawful(s, auth.credentialID, previous, resume, visits, id);
      }
    case Post(key, target, messageID, content, body) =>
      var auth := Authenticate(s, key, None);
      if auth.Authenticated? {
        JudgedLive(s, key, None);
        PostLawful(s, auth.credentialID, target, messageID, content, body, id);
      }
    case AddCredential(k, given, renew) => AddLawful(s, k, given, renew, id);
    case SetState(k, revoke) => SameConnections(s, s, Step(s, r).0, Nothing, id);
    case Ask(instanceID, i) => AskLawful(s, instanceID, i, id);
    case BreakStream(instanceID) => BreakLawful(s, instanceID, id);
    case Lost(target, number) => OnStreamLawful(s, target, number, id);
    case Flush(target, number) => OnStreamLawful(s, target, number, id);
    case Advance(step) => if step >= 0 { DueLawful(s, step, id); }
    case Look(instanceID) => LiveLawful(s, instanceID, id);
  }

  /** An authenticated credential has its request's key, is neither revoked nor expired, and has time left. */
  lemma JudgedLive(s: Server, key: string, named: Option<(string, string)>)
    ensures var auth := Authenticate(s, key, named);
            auth.Authenticated? ==>
              && Owns(s.credentials, auth.credentialID, key)
              && !s.credentials[auth.credentialID].state.Revoked? && !s.credentials[auth.credentialID].state.Expired?
              && s.now < s.credentials[auth.credentialID].expiresAt
              && (s.credentials[auth.credentialID].state.Pending? ==> s.credentials[auth.credentialID].fetched && named.Some?)
              && (named.Some? ==> named.value == (s.credentials[auth.credentialID].instanceID, auth.credentialID))
  {
  }

  ghost predicate AllMove(s: Server, r: Request, s': Server)
    requires Sound(s)
  {
    && s.connections.Keys <= s'.connections.Keys
    && forall id :: id in s.connections ==> MovesFor(s.connections[id], s'.connections[id], WhyOf(s, r, id))
  }

  /** The invariant survives every request, and every connection moves lawfully. */
  lemma StepKeeps(s: Server, r: Request)
    requires Inv(s) && Sound(s) && Fresh(s, r)
    ensures Inv(Step(s, r).0) && AllMove(s, r, Step(s, r).0) && Sound(Step(s, r).0)
  {
    hide Step, Good, MovesFor, Linked, Fresh, WhyOf;
    StepLinked(s, r);
    var s' := Step(s, r).0;
    forall id | id in s'.connections
      ensures Healthy(s'.connections[id])
    {
      StepLawful(s, r, id);
    }
    forall id | id in s.connections
      ensures id in s'.connections && MovesFor(s.connections[id], s'.connections[id], WhyOf(s, r, id))
    {
      StepLawful(s, r, id);
    }
    InvSound(s');
  }
}
