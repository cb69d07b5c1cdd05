/**
 The object store's protected transport (internal/blob/protected_transport.go): generations
 of TLS trust, of which one is active and at most one drains, with the requests that use
 them. Every section under the transport's mutex is one step; the owner's current trust is
 part of the state and rotates at any time.
 */
module Transports {
  import opened Options

  type Time = int
  type RequestID = nat
  type ConnID = nat

  /** What the owner's snapshot gives, or its error. */
  datatype Owner = Trust(roots: string, expires: Time) | NoTrust

  datatype Generation = Generation(roots: string, expires: Time, users: int, closed: bool, connections: set<ConnID>)

  /** Generations are numbered in the order they were made. */
  datatype Transport = Transport(
    owner: Owner, active: nat, retired: Option<nat>, pending: bool, stopped: bool, generations: seq<Generation>)

  /** A request, from its admission to the release of its generation. */
  datatype Request = Refused | Sent(generation: nat) | Body(generation: nat) | Released(generation: nat)

  datatype System = System(t: Transport, requests: map<RequestID, Request>)

  /** How a round trip ends. */
  datatype Response = TripError | NoBody | WithBody

  datatype Step =
    | Rotate(owner: Owner)
    | Activation
    | Timer(generation: nat)
    | Admit(request: RequestID, now: Time)
    | Respond(request: RequestID, response: Response)
    | Read(request: RequestID, failed: bool)
    | CloseBody(request: RequestID)
    | Dial(generation: nat, conn: ConnID)
    | Hangup(generation: nat, conn: ConnID)
    | Stop
    | Shut(generation: nat)

  predicate InRange(t: Transport) {
    t.active < |t.generations| && (t.retired.Some? ==> t.retired.value < |t.generations|)
  }

  function Made(roots: string, expires: Time): Generation { Generation(roots, expires, 0, false, {}) }

  function Set(t: Transport, g: nat, value: Generation): Transport
    requires g < |t.generations|
  {
    t.(generations := t.generations[g := value])
  }

  /** The generation's close: no connection is left and none comes. */
  function CloseGeneration(t: Transport, g: nat): Transport
    requires g < |t.generations|
  {
    Set(t, g, t.generations[g].(closed := true, connections := {}))
  }

  /** activateLocked: new trust makes a new generation, unless one still drains. */
  function Activate(t: Transport): Transport
    requires InRange(t)
    decreases if t.pending then 1 else 0, 1
  {
    if t.stopped || t.owner.NoTrust? || t.generations[t.active].roots == t.owner.roots then t
    else if t.retired.Some? then t.(pending := true)
    else
      var t1 := t.(active := |t.generations|, retired := Some(t.active),
                   generations := t.generations + [Made(t.owner.roots, t.owner.expires)]);
      if t.generations[t.active].users == 0 then Finish(t1, t.active) else t1
  }

  /** finishLocked: the generation is closed and a deferred activation retried. */
  function Finish(t: Transport, g: nat): Transport
    requires InRange(t) && g < |t.generations|
    decreases if t.pending then 1 else 0, 0
  {
    var t1 := CloseGeneration(t, g).(retired := if t.retired == Some(g) then None else t.retired);
    if t1.pending && !t1.stopped then Activate(t1.(pending := false)) else t1
  }

  function Release(t: Transport, g: nat): Transport
    requires InRange(t) && g < |t.generations|
  {
    var t1 := Set(t, g, t.generations[g].(users := t.generations[g].users - 1));
    if t1.generations[g].users == 0 && t1.retired == Some(g) then Finish(t1, g) else t1
  }

  predicate Admits(t: Transport, now: Time)
    requires InRange(t)
  {
    !t.stopped && t.owner.Trust? && now < t.generations[t.active].expires
  }

  function Use(t: Transport): Transport
    requires InRange(t)
  {
    Set(t, t.active, t.generations[t.active].(users := t.generations[t.active].users + 1))
  }

  // ---------- steps ----------

  predicate InRangeAll(s: System) {
    InRange(s.t) && forall r :: r in s.requests && !s.requests[r].Refused? ==> s.requests[r].generation < |s.t.generations|
  }

  predicate Can(s: System, step: Step) {
    match step
    case Admit(r, _) => r !in s.requests
    case Respond(r, _) => r in s.requests && s.requests[r].Sent?
    case Read(r, _) => r in s.requests && (s.requests[r].Body? || s.requests[r].Released?)
    case CloseBody(r) => r in s.requests && (s.requests[r].Body? || s.requests[r].Released?)
    case Dial(g, conn) => g < |s.t.generations| && conn !in s.t.generations[g].connections
    case Hangup(g, _) => g < |s.t.generations|
    case Stop => !s.t.stopped
    case Shut(g) => s.t.stopped && g < |s.t.generations|
    case _ => true
  }

  function ReleaseOne(s: System, r: RequestID): System
    requires InRangeAll(s) && r in s.requests && !s.requests[r].Refused?
  {
    var g := s.requests[r].generation;
    System(Release(s.t, g), s.requests[r := Released(g)])
  }

  /** The body's once: only its first end releases. */
  function EndBody(s: System, r: RequestID): System
    requires InRangeAll(s) && r in s.requests && (s.requests[r].Body? || s.requests[r].Released?)
  {
    if s.requests[r].Body? then ReleaseOne(s, r) else s
  }

  function AdmitOne(s: System, r: RequestID, now: Time): System
    requires InRangeAll(s)
  {
    if Admits(s.t, now) then System(Use(s.t), s.requests[r := Sent(s.t.active)])
    else s.(requests := s.requests[r := Refused])
  }

  function DialOne(t: Transport, g: nat, conn: ConnID): Transport
    requires g < |t.generations|
  {
    if t.generations[g].closed then t
    else Set(t, g, t.generations[g].(connections := t.generations[g].connections + {conn}))
  }

  function Next(s: System, step: Step): System
    requires InRangeAll(s) && Can(s, step)
  {
    match step
    case Rotate(owner) => s.(t := s.t.(owner := owner))
    case Activation => s.(t := Activate(s.t))
    case Timer(g) => if s.t.retired == Some(g) then s.(t := Finish(s.t, g)) else s
    case Admit(r, now) => AdmitOne(s, r, now)
    case Respond(r, response) =>
      if response.WithBody? then s.(requests := s.requests[r := Body(s.requests[r].generation)]) else ReleaseOne(s, r)
    case Read(r, failed) => if failed then EndBody(s, r) else s
    case CloseBody(r) => EndBody(s, r)
    case Dial(g, conn) => s.(t := DialOne(s.t, g, conn))
    case Hangup(g, conn) =>
      s.(t := Set(s.t, g, s.t.generations[g].(connections := s.t.generations[g].connections - {conn})))
    case Stop => s.(t := s.t.(stopped := true, pending := false))
    case Shut(g) => s.(t := CloseGeneration(s.t, g))
  }

  function NewSystem(roots: string, expires: Time): System {
    System(Transport(Trust(roots, expires), 0, None, false, false, [Made(roots, expires)]), map[])
  }
}
