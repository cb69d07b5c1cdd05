/**
 What the clock does to a stream (server.go, tick): which heartbeats fall due, that
 nothing stays overdue, and that advancing twice is advancing once.
 */
module StreamClock {
  import opened Options
  import opened Connections
  import opened ConnectionLaws

  // ---------- the heartbeats that are due ----------

  /** How many heartbeats, the first due at `first`, fall at or before now and strictly before limit. */
  function BeatsDue(first: Time, limit: Time, now: Time): nat {
    if first < limit && first <= now then (Min(limit - 1, now) - first) / HEARTBEAT_INTERVAL + 1 else 0
  }

  function BeatTime(first: Time, i: nat): Time { first + i * HEARTBEAT_INTERVAL }

  lemma BeatsDueExactly(first: Time, limit: Time, now: Time, i: nat)
    ensures i < BeatsDue(first, limit, now) <==> BeatTime(first, i) < limit && BeatTime(first, i) <= now
  {
  }

  lemma BeatsDueStep(first: Time, limit: Time, now: Time)
    requires first < limit && first <= now
    ensures BeatsDue(first, limit, now) == 1 + BeatsDue(first + HEARTBEAT_INTERVAL, limit, now)
  {
  }

  function Due(out: Outbox, ready: bool, limit: Time, now: Time): nat
    requires out.stream.Some?
  {
    if ready && out.stream.value.nextHeartbeat.Some? then BeatsDue(out.stream.value.nextHeartbeat.value, limit, now)
    else 0
  }

  /** n heartbeats logged on stream `number`, numbered on from sequence. */
  function Beats(number: nat, sequence: int, n: nat): seq<Sent> {
    seq(n, i => Sent(number, Heartbeat(sequence + 1 + i)))
  }

  predicate Room(out: Outbox, n: nat)
    requires out.stream.Some?
  {
    |out.stream.value.frames| + n <= STREAM_BUFFER
  }

  /** out after n heartbeats that all found room. */
  ghost predicate AfterBeats(out: Outbox, n: nat, out': Outbox)
    requires out.stream.Some?
  {
    && out'.log == out.log + Beats(out.stream.value.number, out.heartbeatSeq, n)
    && out'.heartbeatSeq == out.heartbeatSeq + n
    && out'.stream.Some? && Open(out') == Open(out)
    && out'.stream.value.number == out.stream.value.number
    && |out'.stream.value.frames| == |out.stream.value.frames| + n
  }

  lemma OneBeat(out: Outbox, at: Time)
    requires Open(out) && Room(out, 1)
    ensures AfterBeats(out, 1, SendHeartbeat(out, at))
    ensures SendHeartbeat(out, at).stream.value.nextHeartbeat == Some(at + HEARTBEAT_INTERVAL)
  {
  }

  lemma BeatsCompose(a: Outbox, b: Outbox, c: Outbox, n: nat)
    requires Open(a) && AfterBeats(a, 1, b) && AfterBeats(b, n, c)
    ensures AfterBeats(a, n + 1, c)
  {
  }

  /** What ends the tick after the last heartbeat: the lease end, the age limit, or neither yet. */
  function Settle(last: Outbox, lease: Time, maxAge: Time, now: Time): Ticked
    requires last.stream.Some?
  {
    if now < Min(lease, maxAge) then Waits(last)
    else if maxAge < lease then Aged(DropStream(Write(last, Disconnect)))
    else LeaseOver(last)
  }

  /**
   The tick of an open stream with room for them writes exactly the heartbeats that are
   due strictly before the lease end and the age limit, in order, then the age disconnect
   or the lease end if one of those has come.
   */
  lemma {:induction false} TickExact(out: Outbox, ready: bool, lease: Time, maxAge: Time, now: Time)
    requires Open(out) && Room(out, Due(out, ready, Min(lease, maxAge), now))
    ensures exists last: Outbox :: AfterBeats(out, Due(out, ready, Min(lease, maxAge), now), last) &&
                                   TickLoop(out, ready, lease, maxAge, now) == Settle(last, lease, maxAge, now)
    decreases if HeartbeatNext(out, ready, Min(lease, maxAge))
              then Min(lease, maxAge) - out.stream.value.nextHeartbeat.value else 0
  {
    var limit := Min(lease, maxAge);
    var n := Due(out, ready, limit, now);
    var r := TickLoop(out, ready, lease, maxAge, now);
    if HeartbeatNext(out, ready, limit) && out.stream.value.nextHeartbeat.value <= now {
      var at := out.stream.value.nextHeartbeat.value;
      var out1 := SendHeartbeat(out, at);
      BeatsDueStep(at, limit, now);
      OneBeat(out, at);
      TickExact(out1, ready, lease, maxAge, now);
      var last: Outbox :| AfterBeats(out1, n - 1, last) && r == Settle(last, lease, maxAge, now);
      BeatsCompose(out, out1, last, n - 1);
    } else {
      assert n == 0;
      assert AfterBeats(out, 0, out);
    }
  }

  // ---------- nothing stays overdue ----------

  ghost predicate NothingOverdue(c: Conn, now: Time, maxStreamAge: int) {
    Open(c.out) ==>
      && now < c.leaseUntil
      && now < c.out.stream.value.started + maxStreamAge
      && (c.readyAccepted && c.out.stream.value.nextHeartbeat.Some? ==> now < c.out.stream.value.nextHeartbeat.value)
  }

  lemma {:induction false} WaitsForLater(out: Outbox, ready: bool, lease: Time, maxAge: Time, now: Time)
    requires out.stream.Some?
    ensures var r := TickLoop(out, ready, lease, maxAge, now);
            && out.heartbeatSeq <= r.out.heartbeatSeq
            && (r.Aged? ==> r.out.stream.None?)
            && (!r.Aged? ==> r.out.stream.Some? && r.out.stream.value.started == out.stream.value.started)
            && (r.Waits? ==> now < Min(lease, maxAge))
            && (r.Waits? && ready && r.out.stream.value.nextHeartbeat.Some? ==>
                now < r.out.stream.value.nextHeartbeat.value)
    decreases if HeartbeatNext(out, ready, Min(lease, maxAge))
              then Min(lease, maxAge) - out.stream.value.nextHeartbeat.value else 0
  {
    if HeartbeatNext(out, ready, Min(lease, maxAge)) && out.stream.value.nextHeartbeat.value <= now {
      WaitsForLater(SendHeartbeat(out, out.stream.value.nextHeartbeat.value), ready, lease, maxAge, now);
    }
  }

  lemma TickLeavesNothingOverdue(c: Conn, now: Time, maxStreamAge: int)
    requires Open(c.out) ==> !c.ended
    ensures NothingOverdue(Tick(c, now, maxStreamAge), now, maxStreamAge)
  {
    if Open(c.out) {
      WaitsForLater(c.out, c.readyAccepted, c.leaseUntil, c.out.stream.value.started + maxStreamAge, now);
    }
  }

  // ---------- advancing twice ----------

  lemma {:induction false} LoopAgain(out: Outbox, ready: bool, lease: Time, maxAge: Time, now1: Time, now2: Time)
    requires out.stream.Some? && now1 <= now2
    ensures var r := TickLoop(out, ready, lease, maxAge, now1);
            if r.Waits? then r.out.stream.Some? &&
              TickLoop(r.out, ready, lease, maxAge, now2) == TickLoop(out, ready, lease, maxAge, now2)
            else TickLoop(out, ready, lease, maxAge, now2) == r
    decreases if HeartbeatNext(out, ready, Min(lease, maxAge))
              then Min(lease, maxAge) - out.stream.value.nextHeartbeat.value else 0
  {
    if HeartbeatNext(out, ready, Min(lease, maxAge)) && out.stream.value.nextHeartbeat.value <= now1 {
      LoopAgain(SendHeartbeat(out, out.stream.value.nextHeartbeat.value), ready, lease, maxAge, now1, now2);
    }
  }

  /** The buffer overflowed: the stream is closed and still the connection's. */
  predicate Overflowed(c: Conn) { c.out.stream.Some? && c.out.stream.value.closed }

  /** When the next heartbeat, age limit or lease end of the current stream comes. */
  function NextDue(c: Conn, maxStreamAge: int): Time
    requires c.out.stream.Some?
  {
    var limit := Min(c.leaseUntil, c.out.stream.value.started + maxStreamAge);
    if HeartbeatNext(c.out, c.readyAccepted, limit) then c.out.stream.value.nextHeartbeat.value else limit
  }

  /**
   Advancing to now1 and then to now2 is advancing to now2, unless the first advance
   overflowed the stream's buffer and something more fell due by now2: a closed stream
   is ticked no further, so the lease end it would have met is missed.
   */
  lemma TickTwice(c: Conn, now1: Time, now2: Time, maxStreamAge: int)
    requires now1 <= now2 && Open(c.out) && !c.ended
    ensures var c1 := Tick(c, now1, maxStreamAge);
            Tick(c1, now2, maxStreamAge) == Tick(c, now2, maxStreamAge) <==>
            (Overflowed(c1) ==> now2 < NextDue(c1, maxStreamAge))
  {
    var age := c.out.stream.value.started + maxStreamAge;
    var c1 := Tick(c, now1, maxStreamAge);
    LoopAgain(c.out, c.readyAccepted, c.leaseUntil, age, now1, now2);
    WaitsForLater(c.out, c.readyAccepted, c.leaseUntil, age, now1);
    if Overflowed(c1) && NextDue(c1, maxStreamAge) <= now2 {
      var limit := Min(c1.leaseUntil, age);
      if HeartbeatNext(c1.out, c1.readyAccepted, limit) {
        WaitsForLater(SendHeartbeat(c1.out, c1.out.stream.value.nextHeartbeat.value),
                      c1.readyAccepted, c1.leaseUntil, age, now2);
      }
    }
  }

  lemma {:induction false} RoomNeverOverflows(out: Outbox, ready: bool, lease: Time, maxAge: Time, now: Time)
    requires Open(out) && Room(out, 0)
    ensures var r := TickLoop(out, ready, lease, maxAge, now);
            r.Waits? ==> (Open(r.out) <==> Room(out, Due(out, ready, Min(lease, maxAge), now)))
  {
    var n := Due(out, ready, Min(lease, maxAge), now);
    if Room(out, n) {
      TickExact(out, ready, lease, maxAge, now);
    } else {
      FullCloses(out, ready, lease, maxAge, now);
    }
  }

  lemma {:induction false} FullCloses(out: Outbox, ready: bool, lease: Time, maxAge: Time, now: Time)
    requires out.stream.Some?
    requires Open(out) ==> !Room(out, Due(out, ready, Min(lease, maxAge), now))
    requires Open(out) ==> Room(out, 0)
    ensures var r := TickLoop(out, ready, lease, maxAge, now); r.Waits? ==> r.out.stream.Some? && !Open(r.out)
    decreases if HeartbeatNext(out, ready, Min(lease, maxAge))
              then Min(lease, maxAge) - out.stream.value.nextHeartbeat.value else 0
  {
    var limit := Min(lease, maxAge);
    if HeartbeatNext(out, ready, limit) && out.stream.value.nextHeartbeat.value <= now {
      BeatsDueStep(out.stream.value.nextHeartbeat.value, limit, now);
      FullCloses(SendHeartbeat(out, out.stream.value.nextHeartbeat.value), ready, lease, maxAge, now);
    }
  }

  /** With room in the buffer for the heartbeats due at the first advance, two advances are one. */
  lemma TickTwiceWithRoom(c: Conn, now1: Time, now2: Time, maxStreamAge: int)
    requires now1 <= now2 && (Open(c.out) ==> !c.ended)
    requires Open(c.out) ==>
      Room(c.out, Due(c.out, c.readyAccepted, Min(c.leaseUntil, c.out.stream.value.started + maxStreamAge), now1))
    ensures Tick(Tick(c, now1, maxStreamAge), now2, maxStreamAge) == Tick(c, now2, maxStreamAge)
  {
    if Open(c.out) {
      TickTwice(c, now1, now2, maxStreamAge);
      WaitsForLater(c.out, c.readyAccepted, c.leaseUntil, c.out.stream.value.started + maxStreamAge, now1);
      RoomNeverOverflows(c.out, c.readyAccepted, c.leaseUntil, c.out.stream.value.started + maxStreamAge, now1);
    }
  }

  // ---------- advancing twice, decided before the first advance ----------

  /** When the loop at time now would next do something, if it goes on waiting. */
  function DueNext(out: Outbox, ready: bool, limit: Time, now: Time): Time
    requires out.stream.Some?
  {
    if ready && out.stream.value.nextHeartbeat.Some?
    then Min(limit, BeatTime(out.stream.value.nextHeartbeat.value, Due(out, ready, limit, now)))
    else limit
  }

  /** A waiting loop has moved the next heartbeat past those that were due, whether they found room or not. */
  lemma {:induction false} NextAfterWaiting(out: Outbox, ready: bool, lease: Time, maxAge: Time, now: Time)
    requires out.stream.Some?
    ensures var limit, r := Min(lease, maxAge), TickLoop(out, ready, lease, maxAge, now);
            && (r.Waits? <==> now < limit)
            && (r.Waits? ==> r.out.stream.Some? && DueNext(r.out, ready, limit, now) == DueNext(out, ready, limit, now) &&
                             Due(r.out, ready, limit, now) == 0)
    decreases if HeartbeatNext(out, ready, Min(lease, maxAge))
              then Min(lease, maxAge) - out.stream.value.nextHeartbeat.value else 0
  {
    var limit := Min(lease, maxAge);
    if HeartbeatNext(out, ready, limit) && out.stream.value.nextHeartbeat.value <= now {
      BeatsDueStep(out.stream.value.nextHeartbeat.value, limit, now);
      NextAfterWaiting(SendHeartbeat(out, out.stream.value.nextHeartbeat.value), ready, lease, maxAge, now);
    }
  }

  /**
   What decides, before either of them, whether two advances of an open stream are one: the
   lease or the age ends by the first, or the heartbeats due by the first find room, or
   nothing more falls due by the second.
   */
  predicate Additive(c: Conn, now1: Time, now2: Time, maxStreamAge: int)
    requires c.out.stream.Some?
  {
    var limit := Min(c.leaseUntil, c.out.stream.value.started + maxStreamAge);
    || limit <= now1
    || Room(c.out, Due(c.out, c.readyAccepted, limit, now1))
    || now2 < DueNext(c.out, c.readyAccepted, limit, now1)
  }

  /** Advancing to now1 and then to now2 is advancing to now2 if and only if that holds of the stream as it is. */
  lemma TickTwiceExactly(c: Conn, now1: Time, now2: Time, maxStreamAge: int)
    requires now1 <= now2 && Open(c.out) && !c.ended && Room(c.out, 0)
    ensures Tick(Tick(c, now1, maxStreamAge), now2, maxStreamAge) == Tick(c, now2, maxStreamAge) <==>
            Additive(c, now1, now2, maxStreamAge)
  {
    var age := c.out.stream.value.started + maxStreamAge;
    TickTwice(c, now1, now2, maxStreamAge);
    WaitsForLater(c.out, c.readyAccepted, c.leaseUntil, age, now1);
    NextAfterWaiting(c.out, c.readyAccepted, c.leaseUntil, age, now1);
    RoomNeverOverflows(c.out, c.readyAccepted, c.leaseUntil, age, now1);
  }
}
