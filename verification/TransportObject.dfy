/**
 The transport as its locked sections update it in place; each method is proved to be the
 step of Transports of the same name.
 */
module TransportObject {
  import opened Options
  import opened Transports

  class HTTPGeneration {
    ghost const number: nat
    const roots: string
    const expires: Time
    var users: int
    var closed: bool
    var connections: set<ConnID>

    constructor (ghost number: nat, roots: string, expires: Time)
      ensures this.number == number && View() == Made(roots, expires)
    {
      this.number, this.roots, this.expires, this.users, this.closed, this.connections := number, roots, expires, 0, false, {};
    }

    ghost function View(): Generation
      reads this
    {
      Generation(roots, expires, users, closed, connections)
    }

    /** A new connection is tracked, unless the generation is closed. */
    method Track(conn: ConnID) returns (tracked: bool)
      modifies this`connections
      ensures tracked == !closed && connections == if closed then old(connections) else old(connections) + {conn}
    {
      if closed {
        return false;
      }
      connections := connections + {conn};
      return true;
    }

    method CloseConnection(conn: ConnID)
      modifies this`connections
      ensures connections == old(connections) - {conn}
    {
      connections := connections - {conn};
    }

    /** close: each tracked connection is closed, once. */
    method Close()
      requires closed ==> connections == {}
      modifies this`closed, this`connections
      ensures View() == old(View()).(closed := true, connections := {})
    {
      if closed {
        return;
      }
      closed := true;
      var rest := connections;
      while rest != {}
        invariant closed && connections == rest
        decreases |rest|
      {
        var conn :| conn in rest;
        rest := rest - {conn};
        CloseConnection(conn);
      }
    }
  }

  ghost predicate Tied(g: HTTPGeneration, number: nat, value: Generation)
    reads g
  {
    g.number == number && g.View() == value && (g.closed ==> g.connections == {})
  }

  class ProtectedTransport {
    var owner: Owner
    var active: HTTPGeneration
    var retired: HTTPGeneration?
    var pending: bool
    var stopped: bool
    ghost var all: seq<HTTPGeneration>
    ghost var values: seq<Generation>

    /** The object is one of the generations. */
    ghost predicate Owns(g: HTTPGeneration)
      reads this`all
    {
      g.number < |all| && all[g.number] == g
    }

    ghost predicate Valid()
      reads this, all
    {
      && |all| == |values| && (forall i :: 0 <= i < |all| ==> Tied(all[i], i, values[i]))
      && Owns(active) && (retired != null ==> Owns(retired))
    }

    ghost function View(): Transport
      reads this, active, retired
    {
      Transport(owner, active.number, if retired == null then None else Some(retired.number), pending, stopped, values)
    }

    constructor (roots: string, expires: Time)
      ensures Valid() && View() == NewSystem(roots, expires).t
    {
      var first := new HTTPGeneration(0, roots, expires);
      this.owner, this.active, this.retired, this.pending, this.stopped := Trust(roots, expires), first, null, false, false;
      this.all, this.values := [first], [Made(roots, expires)];
    }

    lemma Only(g: HTTPGeneration)
      requires Valid() && Owns(g)
      ensures Tied(g, g.number, values[g.number]) && forall i :: 0 <= i < |all| && i != g.number ==> all[i] != g
    {
    }

    method CloseOne(g: HTTPGeneration)
      requires Valid() && Owns(g)
      modifies this`values, g`closed, g`connections
      ensures Valid() && values == old(values)[g.number := old(values)[g.number].(closed := true, connections := {})]
    {
      Only(g);
      g.Close();
      values := values[g.number := g.View()];
      assert Tied(g, g.number, values[g.number]);
      hide Tied;
      assert forall i :: 0 <= i < |all| && i != g.number ==> Tied(all[i], i, values[i]);
    }

    method AddGeneration(roots: string, expires: Time) returns (g: HTTPGeneration)
      requires Valid()
      modifies this`all, this`values
      ensures Valid() && Owns(g) && fresh(g) && g.number == |old(all)| && all == old(all) + [g]
      ensures values == old(values) + [Made(roots, expires)]
    {
      g := new HTTPGeneration(|values|, roots, expires);
      all, values := all + [g], values + [Made(roots, expires)];
      assert Tied(g, g.number, values[g.number]);
    }

    method ActivateLocked()
      requires Valid()
      modifies this, all
      ensures Valid() && View() == Activate(old(View()))
      ensures old(all) <= all && forall i :: |old(all)| <= i < |all| ==> fresh(all[i])
      decreases if pending then 1 else 0, 1
    {
      Only(active);
      if stopped || owner.NoTrust? || active.roots == owner.roots {
        return;
      }
      if retired != null {
        pending := true;
        return;
      }
      var last := active;
      active := AddGeneration(owner.roots, owner.expires);
      retired := last;
      if last.users == 0 {
        FinishLocked(last);
      }
    }

    method FinishLocked(last: HTTPGeneration)
      requires Valid() && Owns(last)
      modifies this, all
      ensures Valid() && View() == Finish(old(View()), last.number)
      ensures old(all) <= all && forall i :: |old(all)| <= i < |all| ==> fresh(all[i])
      decreases if pending then 1 else 0, 0
    {
      CloseOne(last);
      if retired == last {
        retired := null;
      }
      if pending && !stopped {
        pending := false;
        ActivateLocked();
      }
    }

    method ReleaseGeneration(g: HTTPGeneration)
      requires Valid() && Owns(g)
      modifies this, all
      ensures Valid() && View() == Release(old(View()), g.number)
    {
      AddUser(g, -1);
      if g.users == 0 && retired == g {
        FinishLocked(g);
      }
    }

    method AddUser(g: HTTPGeneration, n: int)
      requires Valid() && Owns(g)
      modifies this`values, g`users
      ensures Valid() && values == old(values)[g.number := old(values)[g.number].(users := old(values)[g.number].users + n)]
      ensures g.users == values[g.number].users
    {
      Only(g);
      g.users := g.users + n;
      values := values[g.number := g.View()];
      assert Tied(g, g.number, values[g.number]);
      hide Tied;
      assert forall i :: 0 <= i < |all| && i != g.number ==> Tied(all[i], i, values[i]);
    }

    /** The locked section of RoundTrip: the generation the request will use, unless it is refused. */
    method Admit(now: Time) returns (g: HTTPGeneration?)
      requires Valid()
      modifies this`values, active`users
      ensures Valid() && (g != null) == Admits(old(View()), now)
      ensures g != null ==> g == active && View() == Use(old(View()))
      ensures g == null ==> View() == old(View())
    {
      Only(active);
      if stopped || owner.NoTrust? || now >= active.expires {
        return null;
      }
      AddUser(active, 1);
      return active;
    }

    method TimerFired(g: HTTPGeneration)
      requires Valid() && Owns(g)
      modifies this, all
      ensures Valid()
      ensures View() == if old(View()).retired == Some(g.number) then Finish(old(View()), g.number) else old(View())
    {
      if retired == g {
        FinishLocked(g);
      }
    }

    /** The locked section of Close; the generations it returns are closed outside. */
    method Stop() returns (last: HTTPGeneration, drained: HTTPGeneration?)
      requires Valid()
      modifies this`stopped, this`pending
      ensures Valid() && View() == old(View()).(stopped := true, pending := false)
      ensures last == active && drained == retired
    {
      stopped := true;
      pending := false;
      return active, retired;
    }
  }

  /** A response body, which releases its generation at its first end. */
  class OwnedBody {
    const transport: ProtectedTransport
    const generation: HTTPGeneration
    var released: bool

    constructor (transport: ProtectedTransport, generation: HTTPGeneration)
      ensures this.transport == transport && this.generation == generation && !released
    {
      this.transport, this.generation, this.released := transport, generation, false;
    }

    /** The end of the body, by a failed read or by Close: the first one releases, the others do nothing. */
    method End()
      requires transport.Valid() && transport.Owns(generation)
      modifies this, transport, transport.all
      ensures transport.Valid() && released
      ensures transport.View() ==
        if old(released) then old(transport.View()) else Release(old(transport.View()), generation.number)
    {
      if !released {
        released := true;
        transport.ReleaseGeneration(generation);
      }
    }
  }
}
