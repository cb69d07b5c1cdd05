/**
 Every request keeps the links between connections, instances, credentials and the clock.
 */
module ServerLinks {
  import opened Options
  import opened Connections
  import opened Servers
  import opened ServerLaws

  // ---------- live connections ----------

  /** c' keeps what ties connection c to its instance and credential. */
  ghost predicate SameTies(s: Server, c: Conn, c': Conn) {
    && c'.instance == c.instance && c'.ended == c.ended && c'.credential == c.credential
    && c'.leaseUntil <= s.now + GRANT_MAX
  }

  lemma SetConnLinked(s: Server, id: nat, c': Conn)
    requires Linked(s) && id in s.connections && SameTies(s, s.connections[id], c')
    ensures Linked(SetConn(s, id, c'))
  {
  }

  lemma SetOutLinked(s: Server, id: nat, out: Outbox)
    requires Linked(s) && id in s.connections
    ensures Linked(SetConn(s, id, s.connections[id].(out := out)))
  {
  }

  lemma EndConnLinked(s: Server, id: nat)
    requires Linked(s) && id in s.connections
    ensures Linked(EndConn(s, id))
  {
  }

  lemma CurrentIsLive(s: Server, instanceID: string)
    requires Linked(s)
    ensures Current(s, instanceID) == if instanceID in s.live then s.live[instanceID] else None
  {
  }

  lemma LiveLinked(s: Server, instanceID: string)
    requires Linked(s)
    ensures var (s', active) := Live(s, instanceID);
            && Linked(s')
            && s' == s.(connections := s'.connections, live := s'.live)
            && s'.connections.Keys == s.connections.Keys && s'.live.Keys == s.live.Keys
            && (active.None? && instanceID in s.live ==> s'.live[instanceID] == None)
            && (active.Some? ==> s' == s && s.connections[active.value].instance == instanceID)
  {
    CurrentIsLive(s, instanceID);
    if Current(s, instanceID).Some? {
      EndConnLinked(s, Current(s, instanceID).value);
    }
  }

  // ---------- credentials ----------

  /** A change of credentials that makes none pending and moves none to another instance. */
  ghost predicate TiesKept(creds: map<string, Cred>, creds': map<string, Cred>) {
    forall k :: k in creds ==>
      && k in creds' && creds'[k].instanceID == creds[k].instanceID
      && (creds'[k].state.Pending? ==> creds[k].state.Pending?)
  }

  lemma CredentialsLinked(s: Server, creds: map<string, Cred>)
    requires Linked(s) && TiesKept(s.credentials, creds) && CredsOK(creds, s.live.Keys) && KeysDistinct(creds)
    ensures Linked(s.(credentials := creds))
  {
  }

  lemma FetchLinked(s: Server, c: Conn, credentialID: string, freshKey: string)
    requires Linked(s) && freshKey != "" && forall k :: k in s.credentials ==> s.credentials[k].key != freshKey
    ensures Linked(Fetch(s, c, credentialID, freshKey).0)
  {
  }

  lemma SetStateLinked(s: Server, id: string, state: State)
    requires Linked(s) && id in s.credentials && !state.Pending?
    ensures Linked(s.(credentials := s.credentials[id := s.credentials[id].(state := state)]))
  {
  }

  lemma InstanceLinked(s: Server, instanceID: string)
    requires Linked(s) && instanceID !in s.live
    ensures Linked(s.(live := s.live[instanceID := None]))
  {
  }

  lemma AddLinked(s: Server, id: string, given: Cred)
    requires Linked(s)
    requires given.key == "" || forall k :: k in s.credentials ==> s.credentials[k].key != given.key
    ensures Linked(Add(s, id, given).0)
  {
    var (s', outcome) := Add(s, id, given);
    if outcome.Done? {
      var s1 := s.(live := s'.live);
      if given.instanceID !in s.live {
        InstanceLinked(s, given.instanceID);
      }
      CredentialsLinked(s1, s'.credentials);
    }
  }

  lemma OfferCredential(creds: map<string, Cred>, instances: set<string>, pending: string, id: nat, prior: string)
    requires CredsOK(creds, instances) && KeysDistinct(creds) && pending in creds && creds[pending].state.Pending?
    requires prior in creds && !creds[prior].state.Pending?
    ensures var creds' := creds[pending := creds[pending].(renewalConnection := Some(id), predecessor := Some(prior))];
            CredsOK(creds', instances) && KeysDistinct(creds') && TiesKept(creds, creds')
  {
  }

  lemma OfferLinked(s: Server, pending: string)
    requires Linked(s) && pending in s.credentials && s.credentials[pending].state.Pending?
    ensures Linked(OfferRenewal(s, pending))
  {
    var instanceID := s.credentials[pending].instanceID;
    LiveLinked(s, instanceID);
    var active := Live(s, instanceID).1;
    if active.Some? {
      var id := active.value;
      var c := s.connections[id];
      assert LinkOK(s, id, c);
      SetOutLinked(s, id, WriteRenewals(c.out, [pending]));
      var s2 := SetConn(s, id, c.(out := WriteRenewals(c.out, [pending])));
      OfferCredential(s.credentials, s.live.Keys, pending, id, c.credential);
      CredentialsLinked(s2, OfferRenewal(s, pending).credentials);
    }
  }

  lemma AddStepLinked(s: Server, id: string, given: Cred, renew: bool)
    requires Linked(s)
    requires given.key == "" || forall k :: k in s.credentials ==> s.credentials[k].key != given.key
    ensures Linked(AddStep(s, id, given, renew).0)
  {
    AddLinked(s, id, given);
    var (s1, outcome) := Add(s, id, given);
    if !outcome.ControlError? && renew && given.state.Pending? {
      OfferLinked(s1, id);
    }
  }

  // ---------- the events request ----------

  lemma CommitCredentials(creds: map<string, Cred>, instances: set<string>, used: string)
    requires CredsOK(creds, instances) && KeysDistinct(creds) && used in creds && creds[used].state.Pending?
    ensures var creds1 := creds[used := creds[used].(state := Active)];
            var prior := creds[used].predecessor;
            && CredsOK(creds1, instances) && KeysDistinct(creds1) && TiesKept(creds, creds1)
            && (prior.Some? ==>
                && prior.value in creds1
                && var creds2 := creds1[prior.value := creds1[prior.value].(state := Revoked)];
                   CredsOK(creds2, instances) && KeysDistinct(creds2) && TiesKept(creds, creds2) && creds2[used].state == Active)
  {
  }

  /** Everything linked but, perhaps, the credential of connection id. */
  ghost predicate LinkedBut(s: Server, id: nat) {
    && LiveOK(s) && CredsOK(s.credentials, s.live.Keys) && KeysDistinct(s.credentials)
    && (forall i :: i in s.connections && i != id ==> LinkOK(s, i, s.connections[i]))
  }

  /** The connection that a committed renewal moves to the new credential. */
  lemma CommitLinked(s: Server, id: nat, used: string)
    requires LinkedBut(s, id) && used in s.credentials && s.credentials[used].state.Pending?
    requires id in s.connections && id <= s.lastID && s.connections[id].instance == s.credentials[used].instanceID
    requires s.connections[id].leaseUntil <= s.now + GRANT_MAX && s.connections[id].instance in s.live
    requires !s.connections[id].ended <==> s.live[s.connections[id].instance] == Some(id)
    ensures Linked(Commit(s, id, used))
  {
    CommitCredentials(s.credentials, s.live.Keys, used);
    var s' := Commit(s, id, used);
    assert TiesKept(s.credentials, s'.credentials) && CredsOK(s'.credentials, s'.live.Keys) && KeysDistinct(s'.credentials);
    forall i | i in s'.connections
      ensures LinkOK(s', i, s'.connections[i])
    {
      if i != id {
        assert LinkOK(s, i, s.connections[i]);
      }
    }
  }

  lemma AllocateLinkedBut(s: Server, used: string)
    requires Linked(s) && used in s.credentials && s.now < s.credentials[used].expiresAt
    requires s.live[s.credentials[used].instanceID] == None
    ensures var s2 := Allocate(s, used); s2.lastID !in s.connections && LinkedBut(s2, s2.lastID)
  {
  }

  lemma AllocateLinked(s: Server, used: string)
    requires Linked(s) && used in s.credentials && s.now < s.credentials[used].expiresAt
    requires s.live[s.credentials[used].instanceID] == None
    ensures var s2 := Allocate(s, used);
            s2.lastID !in s.connections && Linked(Commit(s2, s2.lastID, used))
  {
    AllocateLinkedBut(s, used);
    var s2 := Allocate(s, used);
    if s.credentials[used].state.Pending? {
      CommitLinked(s2, s2.lastID, used);
    } else {
      assert LinkOK(s2, s2.lastID, s2.connections[s2.lastID]);
    }
  }

  lemma AttachToLinked(s: Server, id: nat, resumed: bool, visits: seq<string>)
    requires Linked(s) && id in s.connections
    requires forall m :: m in s.connections[id].work.order ==> m in s.connections[id].work.issued
    ensures Linked(AttachTo(s, id, resumed, visits))
  {
  }

  lemma CommitWork(s: Server, id: nat, used: string, i: nat)
    requires id in s.connections && used in s.credentials && i in s.connections
    ensures i in Commit(s, id, used).connections
    ensures Commit(s, id, used).connections[i] ==
            s.connections[i].(credential := Commit(s, id, used).connections[i].credential)
    ensures i != id ==> Commit(s, id, used).connections[i] == s.connections[i]
  {
  }

  lemma ConnectLinked(s: Server, used: string, previous: Option<nat>, resume: bool, visits: seq<string>)
    requires Linked(s) && Sound(s) && used in s.credentials && s.now < s.credentials[used].expiresAt
    ensures Linked(ConnectAs(s, used, previous, resume, visits).0)
  {
    var instanceID := s.credentials[used].instanceID;
    LiveLinked(s, instanceID);
    var (s1, active) := Live(s, instanceID);
    if active.None? {
      AllocateLinked(s1, used);
      var s2 := Allocate(s1, used);
      AttachToLinked(Commit(s2, s2.lastID, used), s2.lastID, false, visits);
    } else if previous == active && resume {
      assert LinkOK(s, active.value, s.connections[active.value]);
      if s.credentials[used].state.Pending? {
        CommitLinked(s, active.value, used);
      }
      AttachToLinked(Commit(s, active.value, used), active.value, true, visits);
    }
  }

  // ---------- upstream requests, controls and the clock ----------

  lemma ServeLinked(s: Server, id: nat, messageID: string, content: string, body: Body)
    requires Linked(s) && id in s.connections && s.connections[id].credential in s.credentials && Replayable(body)
    ensures Linked(SetConn(s, id, Serve(s.connections[id], EnvOf(s, s.connections[id]), messageID, content, body).0))
  {
    hide Apply;
    var c := s.connections[id];
    assert LinkOK(s, id, c);
    ApplyTies(c, EnvOf(s, c), messageID, body);
    SetConnLinked(s, id, Serve(c, EnvOf(s, c), messageID, content, body).0);
  }

  lemma ServeOnLinked(s: Server, id: nat, messageID: string, content: string, body: Body)
    requires Linked(s) && id in s.connections && s.connections[id].credential in s.credentials
    requires !body.TooLarge? && !body.Malformed?
    requires body.FetchCredential? ==>
      body.freshKey != "" && forall k :: k in s.credentials ==> s.credentials[k].key != body.freshKey
    ensures Linked(ServeOn(s, id, messageID, content, body).0)
  {
    var c := s.connections[id];
    if body.FetchCredential? {
      FetchLinked(s, c, body.credentialID, body.freshKey);
    } else {
      ServeLinked(s, id, messageID, content, body);
      var s1 := SetConn(s, id, Serve(c, EnvOf(s, c), messageID, content, body).0);
      RowsLinked(s1, ServeOn(s, id, messageID, content, body).0);
    }
  }

  lemma RowsLinked(s: Server, s': Server)
    requires Linked(s) && s' == s.(toolLists := s'.toolLists)
    ensures Linked(s')
  {
  }

  lemma PostLinked(s: Server, used: string, id: nat, messageID: string, content: string, body: Body)
    requires Linked(s) && Sound(s) && used in s.credentials && Fresh(s, Post("", id, messageID, content, body))
    ensures Linked(PostAs(s, used, id, messageID, content, body).0)
  {
    hide ServeOn;
    hide Linked;
    LiveLinked(s, s.credentials[used].instanceID);
    if !body.TooLarge? && !body.Malformed? && Live(s, s.credentials[used].instanceID).1 == Some(id) {
      ServeOnLinked(s, id, messageID, content, body);
    }
  }

  lemma IssueTies(c: Conn, i: Instruction)
    ensures Issue(c, i) == c.(work := Issue(c, i).work, out := Issue(c, i).out)
  {
  }

  lemma TickTies(c: Conn, now: Time, maxStreamAge: int)
    ensures var c' := Tick(c, now, maxStreamAge); c' == c.(out := c'.out, ended := c'.ended) && (c.ended ==> c'.ended)
  {
  }

  lemma DueLinked(s: Server, step: nat)
    requires Linked(s)
    ensures Linked(DueAll(s.(now := s.now + step)))
  {
    var s' := DueAll(s.(now := s.now + step));
    forall id | id in s.connections
      ensures LinkOK(s', id, s'.connections[id]) && s'.connections[id].instance == s.connections[id].instance
    {
      assert LinkOK(s, id, s.connections[id]);
      TickTies(s.connections[id], s'.now, s.maxStreamAge);
    }
  }

  lemma AskLinked(s: Server, instanceID: string, i: Instruction)
    requires Linked(s)
    ensures Linked(AskStep(s, instanceID, i).0)
  {
    LiveLinked(s, instanceID);
    var active := Live(s, instanceID).1;
    if active.Some? {
      var c := s.connections[active.value];
      assert LinkOK(s, active.value, c);
      IssueTies(c, i.(reported := false));
      SetConnLinked(s, active.value, Issue(c, i.(reported := false)));
    }
  }

  lemma BreakLinked(s: Server, instanceID: string)
    requires Linked(s)
    ensures Linked(BreakStep(s, instanceID).0)
  {
    LiveLinked(s, instanceID);
    var active := Live(s, instanceID).1;
    if active.Some? {
      SetOutLinked(s, active.value, DropStream(s.connections[active.value].out));
    }
  }

  lemma OnStreamLinked(s: Server, id: nat, number: nat)
    requires Linked(s)
    ensures Linked(LostStep(s, id, number)) && Linked(FlushStep(s, id, number))
  {
  }

  lemma EventsLinked(s: Server, key: string, named: (string, string), previous: Option<nat>, resume: bool, visits: seq<string>)
    requires Linked(s) && Sound(s)
    ensures Linked(EventsStep(s, key, named, previous, resume, visits).0)
  {
    var auth := Authenticate(s, key, Some(named));
    if auth.Authenticated? {
      ConnectLinked(s, auth.credentialID, previous, resume, visits);
    }
  }

  lemma PostStepLinked(s: Server, key: string, id: nat, messageID: string, content: string, body: Body)
    requires Linked(s) && Sound(s) && Fresh(s, Post(key, id, messageID, content, body))
    ensures Linked(PostStep(s, key, id, messageID, content, body).0)
  {
    var auth := Authenticate(s, key, None);
    if auth.Authenticated? {
      PostLinked(s, auth.credentialID, id, messageID, content, body);
    }
  }

  lemma StepLinked(s: Server, r: Request)
    requires Linked(s) && Sound(s) && Fresh(s, r)
    ensures Linked(Step(s, r).0)
  {
    hide EventsStep, PostStep, AddStep, AskStep, BreakStep, LostStep, FlushStep, Live, DueAll, Linked;
    match r
    case Events(key, instanceID, credentialID, previous, resume, visits) =>
      EventsLinked(s, key, (instanceID, credentialID), previous, resume, visits);
    case Post(key, id, messageID, content, body) => PostStepLinked(s, key, id, messageID, content, body);
    case AddCredential(id, given, renew) => AddStepLinked(s, id, given, renew);
    case SetState(id, revoke) => if id in s.credentials { SetStateLinked(s, id, if revoke then Revoked else Expired); }
    case Ask(instanceID, i) => AskLinked(s, instanceID, i);
    case BreakStream(instanceID) => BreakLinked(s, instanceID);
    case Lost(id, number) => OnStreamLinked(s, id, number);
    case Flush(id, number) => OnStreamLinked(s, id, number);
    case Advance(step) => if step >= 0 { DueLinked(s, step); }
    case Look(instanceID) => LiveLinked(s, instanceID);
  }
}
