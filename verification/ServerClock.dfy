/**
 The clock of the whole server: advancing twice is advancing once, and no advance leaves
 anything overdue.
 */
module ServerClock {
  import opened Options
  import opened Connections
  import opened ConnectionLaws
  import opened StreamClock
  import opened Servers
  import opened ServerLaws

  /** The connection has no open stream, or one on which two advances, to now1 and to now2, are one. */
  predicate AdditiveAt(c: Conn, now1: Time, now2: Time, maxStreamAge: int) {
    Open(c.out) ==> Additive(c, now1, now2, maxStreamAge)
  }

  ghost predicate AllAdditive(s: Server, now1: Time, now2: Time) {
    forall id :: id in s.connections ==> AdditiveAt(s.connections[id], now1, now2, s.maxStreamAge)
  }

  lemma TicksOnce(c: Conn, now1: Time, now2: Time, maxStreamAge: int)
    requires Healthy(c) && now1 <= now2
    ensures Tick(Tick(c, now1, maxStreamAge), now2, maxStreamAge) == Tick(c, now2, maxStreamAge) <==>
            AdditiveAt(c, now1, now2, maxStreamAge)
  {
    StreamsOfEnded(c);
    if Open(c.out) {
      TickTwiceExactly(c, now1, now2, maxStreamAge);
    }
  }

  lemma ConnectionsOnce(s: Server, a: nat, b: nat, id: nat)
    requires AllHealthy(s) && id in s.connections
    ensures var s1, t := AdvanceStep(s, a).0, AdvanceStep(s, a + b).0;
            var s2 := AdvanceStep(s1, b).0;
            && (s2.connections[id] == t.connections[id] <==> AdditiveAt(s.connections[id], s.now + a, s.now + a + b, s.maxStreamAge))
            && (s1.connections[id].ended ==> s2.connections[id].ended)
  {
    hide Tick, Healthy, AdditiveAt;
    TicksOnce(s.connections[id], s.now + a, s.now + a + b, s.maxStreamAge);
    EndedStays(AdvanceStep(s, a).0.connections[id], s.now + a + b, s.maxStreamAge);
  }

  /**
   With no request in between, advancing by a and then by b leaves the same server, every
   connection and event log included, as advancing by a + b, if and only if no stream
   overflows in the first advance with more falling due by the second.
   */
  lemma AdvanceTwice(s: Server, a: nat, b: nat)
    requires Inv(s)
    ensures AdvanceStep(AdvanceStep(s, a).0, b).0 == AdvanceStep(s, a + b).0 <==> AllAdditive(s, s.now + a, s.now + a + b)
  {
    hide Tick, AllHealthy, Linked, AdditiveAt;
    var s1, t := AdvanceStep(s, a).0, AdvanceStep(s, a + b).0;
    var s2 := AdvanceStep(s1, b).0;
    forall id | id in s.connections
      ensures s2.connections[id] == t.connections[id] <==> AdditiveAt(s.connections[id], s.now + a, s.now + a + b, s.maxStreamAge)
      ensures s1.connections[id].ended ==> s2.connections[id].ended
    {
      ConnectionsOnce(s, a, b, id);
    }
    hide AdvanceStep;
    SameKeys(s, a, b);
    if AllAdditive(s, s.now + a, s.now + a + b) {
      SameLive(s, a, b);
    }
  }

  lemma SameKeys(s: Server, a: nat, b: nat)
    ensures var s1, t := AdvanceStep(s, a).0, AdvanceStep(s, a + b).0;
            var s2 := AdvanceStep(s1, b).0;
            s1.connections.Keys == s2.connections.Keys == t.connections.Keys == s.connections.Keys
  {
  }

  /** Once the connections agree, so does all the rest. */
  lemma SameLive(s: Server, a: nat, b: nat)
    requires var s1, t := AdvanceStep(s, a).0, AdvanceStep(s, a + b).0;
             var s2 := AdvanceStep(s1, b).0;
             forall id :: id in s.connections ==>
               s2.connections[id] == t.connections[id] && (s1.connections[id].ended ==> s2.connections[id].ended)
    ensures AdvanceStep(AdvanceStep(s, a).0, b).0 == AdvanceStep(s, a + b).0
  {
    hide Tick;
    var s1, t := AdvanceStep(s, a).0, AdvanceStep(s, a + b).0;
    var s2 := AdvanceStep(s1, b).0;
    assert s2.connections == t.connections;
    assert s2.live == t.live;
  }

  lemma StreamsOfEnded(c: Conn)
    requires Healthy(c)
    ensures Open(c.out) ==> !c.ended && Room(c.out, 0)
  {
  }

  lemma EndedStays(c: Conn, now: Time, maxStreamAge: int)
    ensures c.ended ==> Tick(c, now, maxStreamAge).ended
  {
  }

  /** After any advance no open stream has an overdue lease end, age limit or heartbeat. */
  lemma AdvanceLeavesNothingOverdue(s: Server, step: nat, id: nat)
    requires Inv(s) && id in s.connections
    ensures var s' := AdvanceStep(s, step).0; NothingOverdue(s'.connections[id], s'.now, s'.maxStreamAge)
  {
    hide Tick, Good, Linked, NothingOverdue;
    assert Healthy(s.connections[id]);
    StreamsOfEnded(s.connections[id]);
    TickLeavesNothingOverdue(s.connections[id], s.now + step, s.maxStreamAge);
  }
}
