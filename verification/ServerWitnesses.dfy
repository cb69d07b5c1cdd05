/**
 Runs from a new server that reach the two failing cases: a lease that moves earlier while
 its credential stays, and two clock advances that are not one.
 */
module ServerWitnesses {
  import opened Options
  import opened Connections
  import opened ConnectionLaws
  import opened StreamClock
  import opened Servers
  import opened ServerLaws
  import opened ServerRuns
  import opened ServerClock
  import opened Leases

  const HOUR: int := 3600 * SECOND
  const START: Server := NewServer(0, "", HOUR)
  const OLD: Cred := Cred("i", "k", 100 * SECOND, Active, false, None, None)

  function Offer(id: string, expires: Time): Request {
    AddCredential(id, Cred("i", "", expires, Pending, false, None, None), true)
  }

  lemma OwnerIs(creds: map<string, Cred>, key: string, id: string)
    requires Owns(creds, id, key) && forall other :: Owns(creds, other, key) ==> other == id
    ensures KeyOwner(creds, key) == Some(id)
  {
  }

  // ---------- a connection whose ready is accepted ----------

  ghost predicate ReadyConn(c: Conn, credential: string) {
    && c.instance == "i" && c.credential == credential && c.leaseUntil == 45 * SECOND && !c.ended
    && c.readyAccepted && c.readyMessageID == "ready" && c.acceptedHeartbeatSeq == 0
    && c.work == NO_WORK && forall m :: m in c.ledger ==> m == "ready"
  }

  /** Instance "i" has connection 1, ready at time 0 under credential `credential`. */
  ghost predicate Serving(s: Server, credential: string) {
    && s.now == 0 && s.minVersion == "" && s.maxStreamAge == HOUR && s.lastID == 1
    && "i" in s.live && s.live["i"] == Some(1) && 1 in s.connections && ReadyConn(s.connections[1], credential)
  }

  /** Its stream is open with so many frames waiting, and the first heartbeat is due at 15 s. */
  ghost predicate Waiting(s: Server, frames: nat)
    requires 1 in s.connections
  {
    var out := s.connections[1].out;
    Open(out) && out.stream.value.started == 0 && out.stream.value.nextHeartbeat == Some(15 * SECOND) &&
    |out.stream.value.frames| == frames
  }

  /** Only "old" has a key yet. */
  ghost predicate OneKey(s: Server) {
    "old" in s.credentials && s.credentials["old"] == OLD && forall k :: k in s.credentials && k != "old" ==> s.credentials[k].key == ""
  }

  lemma FirstCredential()
    ensures Sound(START) && Fresh(START, AddCredential("old", OLD, false))
    ensures var s := Step(START, AddCredential("old", OLD, false)).0;
            s == START.(credentials := map["old" := OLD], live := map["i" := None])
  {
  }

  const CONNECT: Request := Events("k", "i", "old", None, false, [])
  const READY: Request := Post("k", 1, "ready", "", Ready("1.0.0"))

  ghost predicate JustOpened(out: Outbox) {
    Open(out) && out.stream.value.started == 0 && |out.stream.value.frames| == 1
  }

  lemma Connecting(s: Server)
    requires s == START.(credentials := map["old" := OLD], live := map["i" := None]) && Sound(s)
    ensures var s' := Step(s, CONNECT).0;
            && s'.credentials == s.credentials && s'.now == 0 && s'.minVersion == "" && s'.maxStreamAge == HOUR && s'.lastID == 1
            && s'.live == map["i" := Some(1)]
            && s'.connections == map[1 := NewConn("i", "old", 45 * SECOND).(out := s'.connections[1].out)]
            && JustOpened(s'.connections[1].out)
  {
    OwnerIs(s.credentials, "k", "old");
  }

  lemma GettingReady(s: Server)
    requires Sound(s) && s.credentials == map["old" := OLD] && s.now == 0 && s.minVersion == "" && s.maxStreamAge == HOUR && s.lastID == 1
    requires s.live == map["i" := Some(1)]
    requires 1 in s.connections && s.connections == map[1 := NewConn("i", "old", 45 * SECOND).(out := s.connections[1].out)]
    requires JustOpened(s.connections[1].out)
    ensures var s' := Step(s, READY).0; Serving(s', "old") && Waiting(s', 1) && OneKey(s') && s'.credentials == map["old" := OLD]
  {
    OwnerIs(s.credentials, "k", "old");
  }

  /** Three requests make a connection ready. */
  lemma Setup() returns (states: seq<Server>, requests: seq<Request>)
    ensures Run(states, requests) && states[0] == START && |requests| == 3
    ensures Serving(states[3], "old") && Waiting(states[3], 1) && OneKey(states[3]) && states[3].credentials == map["old" := OLD]
  {
    hide Step, Inv, Sound, Serving, Waiting, OneKey;
    NewServerInv(0, "", HOUR);
    FirstCredential();
    states, requests := [START], [];
    RunExtends(states, requests, AddCredential("old", OLD, false));
    states, requests := states + [Step(START, AddCredential("old", OLD, false)).0], [AddCredential("old", OLD, false)];
    RunExtends(states, requests, CONNECT);
    Connecting(states[1]);
    states, requests := states + [Step(states[1], CONNECT).0], requests + [CONNECT];
    RunExtends(states, requests, READY);
    GettingReady(states[2]);
    states, requests := states + [Step(states[2], READY).0], requests + [READY];
  }

  // ---------- a lease that moves earlier ----------

  /** "new" is pending and offered on connection 1, its key not yet fetched or just fetched. */
  ghost predicate Offered(s: Server, key: string, fetched: bool) {
    && "old" in s.credentials && s.credentials["old"] == OLD && "new" in s.credentials
    && s.credentials == map["old" := OLD, "new" := Cred("i", key, 20 * SECOND, Pending, fetched, Some(1), Some("old"))]
  }

  const FETCH: Request := Post("k", 1, "fetch", "", FetchCredential("new", "k2"))
  const RESUME: Request := Events("k2", "i", "new", Some(1), true, [])
  const BEAT: Request := Post("k2", 1, "beat", "", Beat(1))

  lemma Offering(s: Server)
    requires Sound(s) && Serving(s, "old") && Waiting(s, 1) && s.credentials == map["old" := OLD]
    ensures Fresh(s, Offer("new", 20 * SECOND))
    ensures var s' := Step(s, Offer("new", 20 * SECOND)).0; Serving(s', "old") && Offered(s', "", false)
  {
  }

  lemma Fetching(s: Server)
    requires Sound(s) && Serving(s, "old") && Offered(s, "", false)
    ensures Fresh(s, FETCH)
    ensures var s' := Step(s, FETCH).0; Serving(s', "old") && Offered(s', "k2", true)
  {
    OwnerIs(s.credentials, "k", "old");
  }

  lemma Resuming(s: Server)
    requires Sound(s) && Serving(s, "old") && Offered(s, "k2", true)
    ensures var s' := Step(s, RESUME).0;
            && Serving(s', "new")
            && "new" in s'.credentials && s'.credentials["new"] == Cred("i", "k2", 20 * SECOND, Active, true, Some(1), Some("old"))
            && KeyOwner(s'.credentials, "k2") == Some("new")
  {
    OwnerIs(s.credentials, "k2", "new");
    var creds := Step(s, RESUME).0.credentials;
    assert creds == map["old" := OLD.(state := Revoked), "new" := Cred("i", "k2", 20 * SECOND, Active, true, Some(1), Some("old"))];
    OwnerIs(creds, "k2", "new");
  }

  lemma Beating(s: Server)
    requires Inv(s) && Sound(s) && Serving(s, "new") && "new" in s.credentials
    requires s.credentials["new"] == Cred("i", "k2", 20 * SECOND, Active, true, Some(1), Some("old"))
    requires KeyOwner(s.credentials, "k2") == Some("new")
    ensures Fresh(s, BEAT)
    ensures var s' := Step(s, BEAT).0;
            && 1 in s'.connections && s'.connections[1].credential == s.connections[1].credential == "new"
            && s'.connections[1].leaseUntil == 20 * SECOND < 45 * SECOND == s.connections[1].leaseUntil
  {
    hide Inv;
  }

  /**
   A lease does move earlier while the connection's credential stays: a connection is ready under a
   credential with 100 s left, resumes under a renewed one with 20 s left, and sends a heartbeat.
   */
  lemma LeaseCanMoveEarlier() returns (states: seq<Server>, requests: seq<Request>)
    ensures Run(states, requests) && states[0] == START && |requests| == 7
    ensures 1 in states[6].connections && 1 in states[7].connections
    ensures states[7].connections[1].credential == states[6].connections[1].credential
    ensures states[7].connections[1].leaseUntil < states[6].connections[1].leaseUntil
  {
    hide Step, Inv, Sound, Fresh, Serving, Waiting, Offered, OneKey;
    states, requests := Setup();
    RunInv(states, requests, 3);
    Offering(states[3]);
    RunExtends(states, requests, Offer("new", 20 * SECOND));
    states, requests := states + [Step(states[3], Offer("new", 20 * SECOND)).0], requests + [Offer("new", 20 * SECOND)];
    RunInv(states, requests, 4);
    Fetching(states[4]);
    RunExtends(states, requests, FETCH);
    states, requests := states + [Step(states[4], FETCH).0], requests + [FETCH];
    RunInv(states, requests, 5);
    Resuming(states[5]);
    AlwaysFresh(states[5]);
    RunExtends(states, requests, RESUME);
    states, requests := states + [Step(states[5], RESUME).0], requests + [RESUME];
    RunInv(states, requests, 6);
    Beating(states[6]);
    RunExtends(states, requests, BEAT);
    ServingHas(states[6], "new");
    states, requests := states + [Step(states[6], BEAT).0], requests + [BEAT];
  }

  lemma AlwaysFresh(s: Server)
    ensures Fresh(s, RESUME)
  {
  }

  lemma ServingHas(s: Server, credential: string)
    requires Serving(s, credential)
    ensures 1 in s.connections
  {
  }

  // ---------- two advances that are not one ----------

  function Name(n: nat): string { seq(n + 4, _ => 'n') }

  /** No credential has an ID longer than this. */
  ghost predicate ShortIDs(s: Server, n: nat) { forall k :: k in s.credentials ==> |k| <= n }

  /** One more offer is one more frame. */
  lemma OneMoreFrame(s: Server, n: nat)
    requires Sound(s) && Serving(s, "old") && Waiting(s, n) && OneKey(s) && ShortIDs(s, n + 3) && n < STREAM_BUFFER
    ensures Fresh(s, Offer(Name(n), 100 * SECOND))
    ensures var s' := Step(s, Offer(Name(n), 100 * SECOND)).0;
            Serving(s', "old") && Waiting(s', n + 1) && OneKey(s') && ShortIDs(s', n + 4)
  {
    assert Name(n) !in s.credentials;
    OneOffer(s.connections[1].out, Name(n));
    hide WriteRenewals;
  }

  lemma OneOffer(out: Outbox, id: string)
    requires out.stream.Some?
    ensures WriteRenewals(out, [id]) == Write(out, Renew(id))
  {
    assert [id][1..] == [];
  }

  /** A run that leaves n frames in the buffer of the stream. */
  lemma {:induction false} Fill(n: nat) returns (states: seq<Server>, requests: seq<Request>)
    requires 1 <= n <= STREAM_BUFFER
    ensures Run(states, requests) && states[0] == START
    ensures var s := states[|requests|]; Serving(s, "old") && Waiting(s, n) && OneKey(s) && ShortIDs(s, n + 3)
  {
    hide Step, Inv, Sound, Fresh, Serving, Waiting, OneKey;
    if n == 1 {
      states, requests := Setup();
    } else {
      states, requests := Fill(n - 1);
      var s, r := states[|requests|], Offer(Name(n - 1), 100 * SECOND);
      RunInv(states, requests, |requests|);
      OneMoreFrame(s, n - 1);
      RunExtends(states, requests, r);
      states, requests := states + [Step(s, r).0], requests + [r];
    }
  }

  lemma NotAdditive(s: Server)
    requires Serving(s, "old") && Waiting(s, STREAM_BUFFER)
    ensures !AllAdditive(s, s.now + 15 * SECOND, s.now + 15 * SECOND + 30 * SECOND)
  {
    var c := s.connections[1];
    assert Due(c.out, c.readyAccepted, 45 * SECOND, 15 * SECOND) == 1;
    assert !AdditiveAt(c, 15 * SECOND, 45 * SECOND, HOUR);
  }

  /**
   Two advances can differ from one: with a full buffer the heartbeat at 15 s closes the stream,
   and the advance by 30 s more then misses the end of the lease that an advance by 45 s meets.
   */
  lemma OverflowBreaksAdditivity() returns (states: seq<Server>, requests: seq<Request>)
    ensures Run(states, requests) && states[0] == START
    ensures var s := states[|requests|];
            AdvanceStep(AdvanceStep(s, 15 * SECOND).0, 30 * SECOND).0 != AdvanceStep(s, 45 * SECOND).0
  {
    hide Step, Inv, Sound, Fresh, Serving, Waiting, OneKey, AllAdditive, AdvanceStep;
    states, requests := Fill(STREAM_BUFFER);
    var s := states[|requests|];
    RunInv(states, requests, |requests|);
    NotAdditive(s);
    AdvanceTwice(s, 15 * SECOND, 30 * SECOND);
  }
}
