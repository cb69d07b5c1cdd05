/**
 The reference server (cli/reference) as a state machine: its credentials, instances and
 connections, and what each request, control and clock advance does. Every handler runs
 under one mutex, so each is one step.
 */
module Servers {
  import opened Options
  import opened Connections

  datatype State = Active | Pending | Revoked | Expired

  datatype Cred = Cred(
    instanceID: string, key: string, expiresAt: Time, state: State, fetched: bool,
    renewalConnection: Option<nat>, predecessor: Option<string>)

  /** A row of tool lists: the report that last replaced it. */
  datatype ToolRow = ToolRow(connectionID: nat, sequence: int, content: string)

  /** `live` holds the instances, each with its active connection if it has one. */
  datatype Server = Server(
    now: Time, minVersion: string, maxStreamAge: int, lastID: nat,
    credentials: map<string, Cred>, live: map<string, Option<nat>>, connections: map<nat, Conn>,
    toolLists: map<(string, string), ToolRow>)

  function NewServer(start: Time, minVersion: string, maxStreamAge: int): Server {
    Server(start, minVersion, maxStreamAge, 0, map[], map[], map[], map[])
  }

  /**
   A request or control. `visits` is the order in which an events request ranges over the
   credentials; `freshKey` of a credential fetch is the random key it may assign.
   */
  datatype Request =
    | Events(key: string, instanceID: string, credentialID: string, previous: Option<nat>, resume: bool, visits: seq<string>)
    | Post(key: string, connectionID: nat, messageID: string, content: string, body: Body)
    | AddCredential(credentialID: string, given: Cred, renew: bool)
    | SetState(credentialID: string, revoke: bool)
    | Ask(instanceID: string, instruction: Instruction)
    | BreakStream(instanceID: string)
    | Lost(connectionID: nat, number: nat)
    | Flush(connectionID: nat, number: nat)
    | Advance(step: int)
    | Look(instanceID: string)

  datatype Outcome =
    | Opened(id: nat, resumed: bool)
    | Answered(reply: Reply)
    | Rejected(code: Code)
    | Done
    | ControlError

  // ---------- authentication ----------

  ghost predicate Owns(creds: map<string, Cred>, id: string, key: string) {
    id in creds && creds[id].key != "" && creds[id].key == key
  }

  ghost function KeyOwner(creds: map<string, Cred>, key: string): (r: Option<string>)
    ensures r.Some? ==> Owns(creds, r.value, key)
    ensures r.None? ==> forall id :: !Owns(creds, id, key)
  {
    if exists id :: Owns(creds, id, key) then
      var id :| Owns(creds, id, key);
      Some(id)
    else None
  }

  datatype Auth = Authenticated(credentialID: string) | Denied(code: Code)

  /** What a credential found by its key is worth to a request at a time; an events request names its credential and instance. */
  function Verdict(id: string, cred: Cred, named: Option<(string, string)>, now: Time): Auth {
    if cred.state.Pending? && !cred.fetched then Denied(CredentialInvalid)
    else if named.Some? && named.value != (cred.instanceID, id) then Denied(CredentialInvalid)
    else if cred.state.Revoked? then Denied(CredentialRevoked)
    else if cred.state.Expired? || now >= cred.expiresAt then Denied(CredentialExpired)
    else if cred.state.Pending? && named.None? then Denied(CredentialInvalid)
    else Authenticated(id)
  }

  function Judge(s: Server, found: string, named: Option<(string, string)>): Auth
    requires found in s.credentials
  {
    Verdict(found, s.credentials[found], named, s.now)
  }

  ghost function Authenticate(s: Server, key: string, named: Option<(string, string)>): Auth {
    match KeyOwner(s.credentials, key)
    case None => Denied(CredentialInvalid)
    case Some(found) => Judge(s, found, named)
  }

  // ---------- live connections ----------

  function SetConn(s: Server, id: nat, c: Conn): Server { s.(connections := s.connections[id := c]) }

  /** endConnection. */
  function EndConn(s: Server, id: nat): Server
    requires id in s.connections
  {
    var c := s.connections[id];
    SetConn(s, id, End(c)).(
      live := if !c.ended && c.instance in s.live && s.live[c.instance] == Some(id) then s.live[c.instance := None] else s.live)
  }

  /** The active connection of an instance, whose lease may have expired. */
  function Current(s: Server, instanceID: string): Option<nat> {
    if instanceID in s.live && s.live[instanceID].Some? && s.live[instanceID].value in s.connections &&
       !s.connections[s.live[instanceID].value].ended
    then s.live[instanceID] else None
  }

  /** live: the instance's connection while its lease lasts; an expired one is ended. */
  function Live(s: Server, instanceID: string): (r: (Server, Option<nat>))
    ensures r.1.Some? ==> r.0 == s && r.1 == Current(s, instanceID) && s.now < s.connections[r.1.value].leaseUntil
  {
    match Current(s, instanceID)
    case None => (s, None)
    case Some(id) =>
      if s.now >= s.connections[id].leaseUntil then (EndConn(s, id), None) else (s, Some(id))
  }

  // ---------- the events request ----------

  /** commitRenewal: the first use of a fetched pending credential. */
  function Commit(s: Server, id: nat, used: string): Server
    requires id in s.connections && used in s.credentials
  {
    var cred := s.credentials[used];
    if !cred.state.Pending? then s
    else
      var creds := s.credentials[used := cred.(state := Active)];
      var prior := cred.predecessor;
      SetConn(s, id, s.connections[id].(credential := used)).(
        credentials := if prior.Some? && prior.value in creds
                       then creds[prior.value := creds[prior.value].(state := Revoked)] else creds)
  }

  function Offers(creds: map<string, Cred>, id: nat, visits: seq<string>): seq<string> {
    if visits == [] then []
    else
      var rest := Offers(creds, id, visits[1..]);
      var first := visits[0];
      if first in creds && creds[first].state.Pending? && creds[first].renewalConnection == Some(id)
      then [first] + rest else rest
  }

  /** The new connection of an instance that has none. */
  function Allocate(s: Server, used: string): Server
    requires used in s.credentials
  {
    var cred := s.credentials[used];
    var id := s.lastID + 1;
    SetConn(s, id, NewConn(cred.instanceID, used, s.now + Min(GRANT_MAX, cred.expiresAt - s.now))).(
      lastID := id, live := s.live[cred.instanceID := Some(id)])
  }

  /** The new stream of connection id, with what is written on it before the answer's headers. */
  function AttachTo(s: Server, id: nat, resumed: bool, visits: seq<string>): Server
    requires id in s.connections
    requires forall m :: m in s.connections[id].work.order ==> m in s.connections[id].work.issued
  {
    var c := Attach(s.connections[id], s.now, resumed);
    SetConn(s, id, if resumed then c.(out := WriteRenewals(c.out, Offers(s.credentials, id, visits))) else c)
  }

  /** connect and the stream it opens, for an authenticated credential. */
  function ConnectAs(s: Server, used: string, previous: Option<nat>, resume: bool, visits: seq<string>): (Server, Outcome)
    requires used in s.credentials
    requires forall id, m :: id in s.connections && m in s.connections[id].work.order ==> m in s.connections[id].work.issued
  {
    var (s1, active) := Live(s, s.credentials[used].instanceID);
    match active
    case None =>
      var s2 := Allocate(s1, used);
      (AttachTo(Commit(s2, s2.lastID, used), s2.lastID, false, visits), Opened(s2.lastID, false))
    case Some(id) =>
      if previous == Some(id) && resume then
        (AttachTo(Commit(s1, id, used), id, true, visits), Opened(id, true))
      else if previous == Some(id) then
        (s1, Rejected(PreviousConnectionActive(s1.connections[id].leaseUntil - s.now)))
      else (s1, Rejected(ConnectionConflict))
  }

  // ---------- upstream requests ----------

  function EnvOf(s: Server, c: Conn): Env
    requires c.credential in s.credentials
  {
    Env(s.now, s.credentials[c.credential].expiresAt, s.minVersion)
  }

  /** The credential fetch: a pending credential's key is returned once. */
  function Fetch(s: Server, c: Conn, credentialID: string, freshKey: string): (Server, Reply) {
    if credentialID !in s.credentials || s.credentials[credentialID].instanceID != c.instance ||
       !s.credentials[credentialID].state.Pending? || s.credentials[credentialID].fetched ||
       s.now >= s.credentials[credentialID].expiresAt
    then (s, Refused(NotFound))
    else
      var pending := s.credentials[credentialID];
      var key := if pending.key == "" then freshKey else pending.key;
      (s.(credentials := s.credentials[credentialID := pending.(key := key, fetched := true)]),
       Accepted(CredentialKey(credentialID, key, pending.expiresAt)))
  }

  function ReplaceRow(s: Server, id: nat, instanceID: string, server: string, sequence: int, content: string): Server {
    var row := (instanceID, server);
    if row !in s.toolLists || s.toolLists[row].connectionID != id || sequence > s.toolLists[row].sequence
    then s.(toolLists := s.toolLists[row := ToolRow(id, sequence, content)])
    else s
  }

  /** serve, for a message of the live connection id. */
  function ServeOn(s: Server, id: nat, messageID: string, content: string, body: Body): (Server, Reply)
    requires id in s.connections && s.connections[id].credential in s.credentials
    requires !body.TooLarge? && !body.Malformed?
  {
    var c := s.connections[id];
    if body.FetchCredential? then Fetch(s, c, body.credentialID, body.freshKey)
    else
      var (c', reply) := Serve(c, EnvOf(s, c), messageID, content, body);
      var s' := SetConn(s, id, c');
      (if reply.Accepted? && body.McpTools? then ReplaceRow(s', id, c.instance, body.server, body.sequence, content)
       else s', reply)
  }

  /** serve, after authentication as `used`. */
  function PostAs(s: Server, used: string, id: nat, messageID: string, content: string, body: Body): (Server, Outcome)
    requires used in s.credentials
    requires forall i :: i in s.connections ==> s.connections[i].credential in s.credentials
  {
    if body.TooLarge? then (s, Rejected(RequestTooLarge))
    else if body.Malformed? || messageID == "" then (s, Rejected(InvalidMessage))
    else if id !in s.connections || s.connections[id].instance != s.credentials[used].instanceID then
      (s, Rejected(StaleConnection))
    else
      var (s1, active) := Live(s, s.credentials[used].instanceID);
      if active != Some(id) then (s1, Rejected(StaleConnection))
      else
        var (s2, reply) := ServeOn(s1, id, messageID, content, body);
        (s2, Answered(reply))
  }

  // ---------- controls ----------

  /** offerRenewal: credential.renew on the live connection, which then owns the offer. */
  function OfferRenewal(s: Server, pending: string): Server
    requires pending in s.credentials
  {
    var (s1, active) := Live(s, s.credentials[pending].instanceID);
    match active
    case None => s1
    case Some(id) =>
      var c := s1.connections[id];
      SetConn(s1, id, c.(out := WriteRenewals(c.out, [pending]))).(
        credentials := s1.credentials[pending := s1.credentials[pending].(renewalConnection := Some(id), predecessor := Some(c.credential))])
  }

  function Add(s: Server, id: string, given: Cred): (Server, Outcome) {
    if given.instanceID == "" || id == "" || (!given.state.Pending? && given.key == "") || id in s.credentials then
      (s, ControlError)
    else
      (s.(credentials := s.credentials[id := given.(fetched := false, renewalConnection := None, predecessor := None)],
          live := if given.instanceID in s.live then s.live else s.live[given.instanceID := None]), Done)
  }

  function AddStep(s: Server, id: string, given: Cred, renew: bool): (Server, Outcome) {
    var (s1, outcome) := Add(s, id, given);
    if outcome.ControlError? || !renew then (s1, outcome)
    else if !given.state.Pending? then (s1, ControlError)
    else (OfferRenewal(s1, id), Done)
  }

  function AskStep(s: Server, instanceID: string, i: Instruction): (Server, Outcome) {
    var (s1, active) := Live(s, instanceID);
    match active
    case None => (s1, ControlError)
    case Some(id) => (SetConn(s1, id, Issue(s1.connections[id], i.(reported := false))), Done)
  }

  function BreakStep(s: Server, instanceID: string): (Server, Outcome) {
    var (s1, active) := Live(s, instanceID);
    match active
    case None => (s1, ControlError)
    case Some(id) =>
      var c := s1.connections[id];
      if c.out.stream.None? then (s1, ControlError) else (SetConn(s1, id, c.(out := DropStream(c.out))), Done)
  }

  predicate OnStream(s: Server, id: nat, number: nat) {
    id in s.connections && s.connections[id].out.stream.Some? && s.connections[id].out.stream.value.number == number
  }

  // ---------- the clock ----------

  /** due, at the clock's time: every connection's current stream is ticked. */
  function DueAll(s: Server): Server {
    var ticked := map id | id in s.connections :: Tick(s.connections[id], s.now, s.maxStreamAge);
    s.(connections := ticked,
       live := map instanceID | instanceID in s.live ::
                 if s.live[instanceID].Some? && s.live[instanceID].value in ticked && ticked[s.live[instanceID].value].ended
                 then None else s.live[instanceID])
  }

  function AdvanceStep(s: Server, step: int): (Server, Outcome) {
    if step < 0 then (s, ControlError) else (DueAll(s.(now := s.now + step)), Done)
  }

  // ---------- steps ----------

  /** What the invariant of the connections gives the functions above. */
  ghost predicate Sound(s: Server) {
    && (forall id, m :: id in s.connections && m in s.connections[id].work.order ==> m in s.connections[id].work.issued)
    && (forall id :: id in s.connections ==> s.connections[id].credential in s.credentials)
  }

  ghost function EventsStep(s: Server, key: string, named: (string, string), previous: Option<nat>, resume: bool,
                            visits: seq<string>): (Server, Outcome)
    requires Sound(s)
  {
    match Authenticate(s, key, Some(named))
    case Denied(code) => (s, Rejected(code))
    case Authenticated(used) => ConnectAs(s, used, previous, resume, visits)
  }

  ghost function PostStep(s: Server, key: string, id: nat, messageID: string, content: string, body: Body): (Server, Outcome)
    requires Sound(s)
  {
    match Authenticate(s, key, None)
    case Denied(code) => (s, Rejected(code))
    case Authenticated(used) => PostAs(s, used, id, messageID, content, body)
  }

  function StateStep(s: Server, id: string, state: State): (Server, Outcome) {
    if id !in s.credentials then (s, ControlError)
    else (s.(credentials := s.credentials[id := s.credentials[id].(state := state)]), Done)
  }

  /** lost: the client of stream `number` went away. */
  function LostStep(s: Server, id: nat, number: nat): Server {
    if OnStream(s, id, number) then SetConn(s, id, s.connections[id].(out := DropStream(s.connections[id].out))) else s
  }

  function FlushStep(s: Server, id: nat, number: nat): Server {
    if OnStream(s, id, number) then SetConn(s, id, s.connections[id].(out := TakeFrame(s.connections[id].out))) else s
  }

  ghost function Step(s: Server, r: Request): (Server, Outcome)
    requires Sound(s)
  {
    match r
    case Events(key, instanceID, credentialID, previous, resume, visits) =>
      EventsStep(s, key, (instanceID, credentialID), previous, resume, visits)
    case Post(key, id, messageID, content, body) => PostStep(s, key, id, messageID, content, body)
    case AddCredential(id, given, renew) => AddStep(s, id, given, renew)
    case SetState(id, revoke) => StateStep(s, id, if revoke then Revoked else Expired)
    case Ask(instanceID, i) => AskStep(s, instanceID, i)
    case BreakStream(instanceID) => BreakStep(s, instanceID)
    case Lost(id, number) => (LostStep(s, id, number), Done)
    case Flush(id, number) => (FlushStep(s, id, number), Done)
    case Advance(step) => AdvanceStep(s, step)
    case Look(instanceID) => (Live(s, instanceID).0, Done)
  }
}
