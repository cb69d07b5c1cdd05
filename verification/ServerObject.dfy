/**
 The server as its handlers update it in place, under its mutex. Handle runs one request;
 it is proved to do exactly what Servers.Step says, so every law of the runs holds of it.
 */
module ServerObject {
  import opened Options
  import opened Connections
  import opened ConnectionLaws
  import opened ConnectionObject
  import opened Servers
  import opened ServerLaws
  import opened ServerMoves

  class ReferenceServer {
    const minVersion: string
    const maxStreamAge: int
    var now: Time
    var lastID: nat
    var credentials: map<string, Cred>
    var live: map<string, Option<nat>>
    var connections: map<nat, Connection>
    var toolLists: map<(string, string), ToolRow>

    /** No two identities share a connection object. */
    ghost predicate Valid()
      reads this
    {
      forall a, b :: a in connections && b in connections && a != b ==> connections[a] != connections[b]
    }

    ghost function View(): Server
      reads this, connections.Values
    {
      Server(now, minVersion, maxStreamAge, lastID, credentials, live,
             map id | id in connections :: connections[id].View(), toolLists)
    }

    constructor (start: Time, minVersion: string, maxStreamAge: int)
      ensures Valid() && View() == NewServer(start, minVersion, maxStreamAge)
    {
      this.minVersion, this.maxStreamAge, this.now, this.lastID := minVersion, maxStreamAge, start, 0;
      this.credentials, this.live, this.connections, this.toolLists := map[], map[], map[], map[];
    }

    /** Only the object of connection id has changed. */
    twostate lemma OneChanged(id: nat)
      requires old(Valid()) && id in old(connections) && connections == old(connections)
      requires forall i :: i in old(connections) && i != id ==> unchanged(old(connections[i]))
      ensures Valid()
      ensures View().connections == old(View()).connections[id := connections[id].View()]
    {
    }

    /** No connection object has changed. */
    twostate lemma NoneChanged()
      requires old(Valid()) && connections == old(connections)
      requires forall i :: i in old(connections) ==> unchanged(old(connections[i]))
      ensures Valid()
      ensures View().connections == old(View()).connections
    {
    }

    // ---------- authentication ----------

    method Authenticate(key: string, named: Option<(string, string)>) returns (auth: Auth)
      requires KeysDistinct(credentials)
      ensures auth == Servers.Authenticate(View(), key, named)
    {
      var rest := credentials.Keys;
      while rest != {}
        invariant rest <= credentials.Keys
        invariant forall k :: k in credentials && k !in rest ==> !Owns(credentials, k, key)
        decreases |rest|
      {
        var k :| k in rest;
        if credentials[k].key != "" && credentials[k].key == key {
          var found := KeyOwner(credentials, key);
          assert Owns(credentials, k, key) && found == Some(k);
          return Verdict(k, credentials[k], named, now);
        }
        rest := rest - {k};
      }
      return Denied(CredentialInvalid);
    }

    // ---------- live connections ----------

    method EndConnection(id: nat)
      requires Valid() && id in connections
      modifies this`live, connections[id]
      ensures Valid() && View() == EndConn(old(View()), id)
    {
      var conn := connections[id];
      if !conn.ended && conn.instance in live && live[conn.instance] == Some(id) {
        live := live[conn.instance := None];
      }
      conn.EndConnection();
      OneChanged(id);
    }

    method Live(instanceID: string) returns (active: Option<nat>)
      requires Valid()
      modifies this`live, connections.Values
      ensures Valid() && (View(), active) == Servers.Live(old(View()), instanceID)
    {
      if instanceID !in live || live[instanceID].None? || live[instanceID].value !in connections ||
         connections[live[instanceID].value].ended
      {
        return None;
      }
      var id := live[instanceID].value;
      if now >= connections[id].leaseUntil {
        EndConnection(id);
        return None;
      }
      return Some(id);
    }

    // ---------- the events request ----------

    method CommitRenewal(id: nat, used: string)
      requires Valid() && id in connections && used in credentials
      modifies this`credentials, connections[id]
      ensures Valid() && View() == Commit(old(View()), id, used)
      ensures connections[id].order == old(connections[id].order) && connections[id].issued == old(connections[id].issued)
    {
      var cred := credentials[used];
      if !cred.state.Pending? {
        return;
      }
      credentials := credentials[used := cred.(state := Active)];
      connections[id].credential := used;
      if cred.predecessor.Some? && cred.predecessor.value in credentials {
        var prior := cred.predecessor.value;
        credentials := credentials[prior := credentials[prior].(state := Revoked)];
      }
      OneChanged(id);
    }

    /** A new connection object has been added under id. */
    twostate lemma OneAdded(id: nat, new conn: Connection)
      requires old(Valid()) && id !in old(connections) && connections == old(connections)[id := conn] && fresh(conn)
      requires forall i :: i in old(connections) ==> unchanged(old(connections[i]))
      ensures Valid()
      ensures View().connections == old(View()).connections[id := conn.View()]
    {
    }

    method NewConnection(used: string) returns (id: nat)
      requires Valid() && used in credentials && lastID + 1 !in connections
      modifies this
      ensures Valid() && View() == Allocate(old(View()), used) && id == lastID
      ensures connections.Keys == old(connections.Keys) + {id} && credentials == old(credentials)
      ensures fresh(connections[id]) && connections == old(connections)[id := connections[id]]
      ensures connections[id].order == []
    {
      hide NewConn, Min;
      var cred := credentials[used];
      lastID := lastID + 1;
      id := lastID;
      var conn := new Connection(cred.instanceID, used, now + Min(GRANT_MAX, cred.expiresAt - now));
      live := live[cred.instanceID := Some(id)];
      connections := connections[id := conn];
      OneAdded(id, conn);
    }

    /** The pending offers of connection id, in the order the credentials are visited. */
    method PendingOffers(id: nat, visits: seq<string>) returns (offers: seq<string>)
      ensures offers == Offers(credentials, id, visits)
    {
      offers := [];
      var k := |visits|;
      while k > 0
        invariant 0 <= k <= |visits|
        invariant offers == Offers(credentials, id, visits[k..])
      {
        k := k - 1;
        assert visits[k..][1..] == visits[k + 1..];
        var candidate := visits[k];
        if candidate in credentials && credentials[candidate].state.Pending? &&
           credentials[candidate].renewalConnection == Some(id)
        {
          offers := [candidate] + offers;
        }
      }
    }

    method AttachStream(id: nat, resumed: bool, visits: seq<string>)
      requires Valid() && id in connections && forall m :: m in connections[id].order ==> m in connections[id].issued
      modifies connections[id]
      ensures Valid() && View() == AttachTo(old(View()), id, resumed, visits)
    {
      hide Attach, WriteRenewals;
      var conn := connections[id];
      conn.Attach(now, resumed);
      if resumed {
        var offers := PendingOffers(id, visits);
        conn.OfferRenewals(offers);
      }
      OneChanged(id);
    }

    method OpenNew(used: string, visits: seq<string>) returns (id: nat)
      requires Valid() && used in credentials && forall id :: id in connections ==> id <= lastID
      modifies this
      ensures Valid()
      ensures var s := Allocate(old(View()), used); id == s.lastID && View() == AttachTo(Commit(s, s.lastID, used), s.lastID, false, visits)
    {
      hide AttachTo, Commit;
      id := NewConnection(used);
      CommitRenewal(id, used);
      AttachStream(id, false, visits);
    }

    method ConnectAs(used: string, previous: Option<nat>, resume: bool, visits: seq<string>) returns (outcome: Outcome)
      requires Valid() && Sound(View()) && used in credentials && forall id :: id in connections ==> id <= lastID
      modifies this, connections.Values
      ensures Valid() && (View(), outcome) == Servers.ConnectAs(old(View()), used, previous, resume, visits)
    {
      hide AttachTo, Commit;
      var active := Live(credentials[used].instanceID);
      if active.None? {
        var id := OpenNew(used, visits);
        return Opened(id, false);
      }
      var id := active.value;
      if previous == Some(id) && resume {
        CommitRenewal(id, used);
        AttachStream(id, true, visits);
        return Opened(id, true);
      } else if previous == Some(id) {
        return Rejected(PreviousConnectionActive(connections[id].leaseUntil - now));
      }
      return Rejected(ConnectionConflict);
    }

    // ---------- upstream requests ----------

    method FetchCredential(id: nat, credentialID: string, freshKey: string) returns (reply: Reply)
      requires Valid() && id in connections
      modifies this`credentials
      ensures Valid() && (View(), reply) == Fetch(old(View()), old(View()).connections[id], credentialID, freshKey)
    {
      if credentialID !in credentials {
        return Refused(NotFound);
      }
      var pending := credentials[credentialID];
      if pending.instanceID != connections[id].instance || !pending.state.Pending? || pending.fetched || now >= pending.expiresAt {
        return Refused(NotFound);
      }
      if pending.key == "" {
        pending := pending.(key := freshKey);
      }
      pending := pending.(fetched := true);
      credentials := credentials[credentialID := pending];
      NoneChanged();
      return Accepted(CredentialKey(credentialID, pending.key, pending.expiresAt));
    }

    method ReplaceToolRow(id: nat, instanceID: string, server: string, sequence: int, content: string)
      requires Valid()
      modifies this`toolLists
      ensures Valid() && View() == ReplaceRow(old(View()), id, instanceID, server, sequence, content)
    {
      var row := (instanceID, server);
      if row !in toolLists || toolLists[row].connectionID != id || sequence > toolLists[row].sequence {
        toolLists := toolLists[row := ToolRow(id, sequence, content)];
      }
      NoneChanged();
    }

    method ServeMessage(id: nat, messageID: string, content: string, body: Body) returns (reply: Reply)
      requires Valid() && id in connections && connections[id].credential in credentials
      requires !body.TooLarge? && !body.Malformed?
      modifies this`credentials, this`toolLists, connections[id]
      ensures Valid() && (View(), reply) == ServeOn(old(View()), id, messageID, content, body)
    {
      hide Serve;
      if body.FetchCredential? {
        reply := FetchCredential(id, body.credentialID, body.freshKey);
        return;
      }
      var conn := connections[id];
      reply := conn.Serve(Env(now, credentials[conn.credential].expiresAt, minVersion), messageID, content, body);
      OneChanged(id);
      if reply.Accepted? && body.McpTools? {
        ReplaceToolRow(id, conn.instance, body.server, body.sequence, content);
      }
    }

    /** serve, after authentication as `used`. */
    method PostAs(used: string, id: nat, messageID: string, content: string, body: Body) returns (outcome: Outcome)
      requires Valid() && Sound(View()) && used in credentials
      modifies this, connections.Values
      ensures Valid() && (View(), outcome) == Servers.PostAs(old(View()), used, id, messageID, content, body)
    {
      hide ServeOn;
      if body.TooLarge? {
        return Rejected(RequestTooLarge);
      }
      if body.Malformed? || messageID == "" {
        return Rejected(InvalidMessage);
      }
      if id !in connections || connections[id].instance != credentials[used].instanceID {
        return Rejected(StaleConnection);
      }
      var active := Live(credentials[used].instanceID);
      if active != Some(id) {
        return Rejected(StaleConnection);
      }
      assert View().connections[id].credential in credentials;
      var reply := ServeMessage(id, messageID, content, body);
      return Answered(reply);
    }

    // ---------- controls ----------

    method OfferRenewal(pending: string)
      requires Valid() && pending in credentials
      modifies this, connections.Values
      ensures Valid() && View() == Servers.OfferRenewal(old(View()), pending)
    {
      hide WriteRenewals;
      var active := Live(credentials[pending].instanceID);
      if active.None? {
        return;
      }
      label Found:
      var id := active.value;
      var conn := connections[id];
      credentials := credentials[pending := credentials[pending].(renewalConnection := Some(id), predecessor := Some(conn.credential))];
      conn.OfferRenewals([pending]);
      OneChanged@Found(id);
    }

    method AddCredential(id: string, given: Cred, renew: bool) returns (outcome: Outcome)
      requires Valid()
      modifies this, connections.Values
      ensures Valid() && (View(), outcome) == AddStep(old(View()), id, given, renew)
    {
      hide Servers.OfferRenewal;
      if given.instanceID == "" || id == "" || (!given.state.Pending? && given.key == "") || id in credentials {
        return ControlError;
      }
      credentials := credentials[id := given.(fetched := false, renewalConnection := None, predecessor := None)];
      if given.instanceID !in live {
        live := live[given.instanceID := None];
      }
      NoneChanged();
      if renew {
        if !given.state.Pending? {
          return ControlError;
        }
        OfferRenewal(id);
      }
      return Done;
    }

    method SetState(id: string, state: State) returns (outcome: Outcome)
      requires Valid()
      modifies this`credentials
      ensures Valid() && (View(), outcome) == StateStep(old(View()), id, state)
    {
      if id !in credentials {
        return ControlError;
      }
      credentials := credentials[id := credentials[id].(state := state)];
      NoneChanged();
      return Done;
    }

    method Ask(instanceID: string, i: Instruction) returns (outcome: Outcome)
      requires Valid()
      modifies this`live, connections.Values
      ensures Valid() && (View(), outcome) == AskStep(old(View()), instanceID, i)
    {
      hide Issue;
      var active := Live(instanceID);
      if active.None? {
        return ControlError;
      }
      label Found:
      connections[active.value].Issue(i.(reported := false));
      OneChanged@Found(active.value);
      return Done;
    }

    method BreakStream(instanceID: string) returns (outcome: Outcome)
      requires Valid()
      modifies this`live, connections.Values
      ensures Valid() && (View(), outcome) == BreakStep(old(View()), instanceID)
    {
      var active := Live(instanceID);
      if active.None? || connections[active.value].stream.None? {
        return ControlError;
      }
      label Found:
      connections[active.value].stream := None;
      OneChanged@Found(active.value);
      return Done;
    }

    method Lost(id: nat, number: nat)
      requires Valid()
      modifies connections.Values
      ensures Valid() && View() == LostStep(old(View()), id, number)
    {
      if id in connections && connections[id].stream.Some? && connections[id].stream.value.number == number {
        connections[id].stream := None;
        OneChanged(id);
      }
    }

    /** The writer of stream `number` takes the next frame. */
    method Flush(id: nat, number: nat)
      requires Valid()
      modifies connections.Values
      ensures Valid() && View() == FlushStep(old(View()), id, number)
    {
      if id in connections && connections[id].stream.Some? && connections[id].stream.value.number == number {
        var st := connections[id].stream.value;
        if st.frames != [] {
          connections[id].stream := Some(st.(frames := st.frames[1..]));
        }
        OneChanged(id);
      }
    }

    // ---------- the clock ----------

    method TickConnection(id: nat)
      requires id in connections
      modifies this`live, connections[id]
      ensures connections[id].View() == Tick(old(connections[id].View()), now, maxStreamAge)
      ensures live.Keys == old(live.Keys)
      ensures forall i :: i in live ==>
        live[i] == if i == connections[id].instance && old(live[i]) == Some(id) && connections[id].View().ended then None else old(live[i])
    {
      hide Tick;
      var conn := connections[id];
      conn.Tick(now, maxStreamAge);
      if conn.ended && conn.instance in live && live[conn.instance] == Some(id) {
        live := live[conn.instance := None];
      }
    }

    /** Every connection's current stream is ticked, in whatever order the map is visited. */
    method Sweep()
      requires Valid()
      requires forall i :: i in live && live[i].Some? ==> live[i].value in connections && connections[live[i].value].instance == i
      modifies this`live, connections.Values
      ensures live.Keys == old(live.Keys)
      ensures forall id :: id in connections ==> connections[id].View() == Tick(old(connections[id].View()), now, maxStreamAge)
      ensures forall i :: i in live ==>
        live[i] == if old(live[i]).Some? && connections[old(live[i]).value].View().ended then None else old(live[i])
    {
      hide Tick, Connection.View;
      var rest := connections.Keys;
      while rest != {}
        invariant rest <= connections.Keys && live.Keys == old(live.Keys)
        invariant forall id :: id in rest ==> unchanged(connections[id])
        invariant forall id :: id in connections && id !in rest ==>
          connections[id].View() == Tick(old(connections[id].View()), now, maxStreamAge)
        invariant forall i :: i in live ==>
          live[i] == if old(live[i]).Some? && old(live[i]).value !in rest && connections[old(live[i]).value].View().ended then None else old(live[i])
        decreases |rest|
      {
        var id :| id in rest;
        TickConnection(id);
        rest := rest - {id};
      }
    }

    method Due()
      requires Valid() && LiveOK(View())
      modifies this`live, connections.Values
      ensures Valid() && View() == DueAll(old(View()))
    {
      hide Tick;
      assert forall i :: i in live && live[i].Some? ==> View().connections[live[i].value].instance == i;
      Sweep();
      assert View().connections == DueAll(old(View())).connections;
      assert View().live == DueAll(old(View())).live;
    }

    method Advance(step: int) returns (outcome: Outcome)
      requires Valid() && LiveOK(View())
      modifies this, connections.Values
      ensures Valid() && (View(), outcome) == AdvanceStep(old(View()), step)
    {
      hide DueAll;
      if step < 0 {
        return ControlError;
      }
      now := now + step;
      NoneChanged();
      assert View() == old(View()).(now := now);
      Due();
      return Done;
    }

    // ---------- one request ----------

    method Events(key: string, instanceID: string, credentialID: string, previous: Option<nat>, resume: bool,
                  visits: seq<string>) returns (outcome: Outcome)
      requires Valid() && Sound(View()) && Linked(View())
      modifies this, connections.Values
      ensures Valid()
      ensures (View(), outcome) == EventsStep(old(View()), key, (instanceID, credentialID), previous, resume, visits)
    {
      hide Servers.ConnectAs, Sound;
      var auth := Authenticate(key, Some((instanceID, credentialID)));
      match auth
      case Denied(code) => outcome := Rejected(code);
      case Authenticated(used) =>
        assert forall id :: id in connections ==> LinkOK(View(), id, View().connections[id]);
        outcome := ConnectAs(used, previous, resume, visits);
    }

    method Post(key: string, id: nat, messageID: string, content: string, body: Body) returns (outcome: Outcome)
      requires Valid() && Sound(View()) && Linked(View())
      modifies this, connections.Values
      ensures Valid() && (View(), outcome) == PostStep(old(View()), key, id, messageID, content, body)
    {
      hide Servers.PostAs, Sound;
      var auth := Authenticate(key, None);
      match auth
      case Denied(code) => outcome := Rejected(code);
      case Authenticated(used) => outcome := PostAs(used, id, messageID, content, body);
    }

    method Handle(r: Request) returns (outcome: Outcome)
      requires Valid() && Inv(View()) && Sound(View()) && Fresh(View(), r)
      modifies this, connections.Values
      ensures Valid() && (View(), outcome) == Step(old(View()), r)
      ensures Inv(View()) && Sound(View())
    {
      StepKeeps(View(), r);
      hide Sound, LinksOK, LiveOK, CredsOK, KeysDistinct, AllHealthy, Fresh, AllMove;
      hide EventsStep, PostStep, AddStep, StateStep, AskStep, BreakStep, LostStep, FlushStep, AdvanceStep, Servers.Live;
      match r
      case Events(key, instanceID, credentialID, previous, resume, visits) =>
        outcome := Events(key, instanceID, credentialID, previous, resume, visits);
      case Post(key, id, messageID, content, body) => outcome := Post(key, id, messageID, content, body);
      case AddCredential(id, given, renew) => outcome := AddCredential(id, given, renew);
      case SetState(id, revoke) => outcome := SetState(id, if revoke then Revoked else Expired);
      case Ask(instanceID, i) => outcome := Ask(instanceID, i);
      case BreakStream(instanceID) => outcome := BreakStream(instanceID);
      case Lost(id, number) => Lost(id, number); outcome := Done;
      case Flush(id, number) => Flush(id, number); outcome := Done;
      case Advance(step) => outcome := Advance(step);
      case Look(instanceID) => var _ := Live(instanceID); outcome := Done;
    }
  }
}
