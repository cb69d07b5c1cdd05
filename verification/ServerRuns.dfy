/**
 What holds over every run of the server: from any state that satisfies the invariant, through any sequence of requests.
 */
module ServerRuns {
  import opened Options
  import opened Connections
  import opened ConnectionLaws
  import opened Servers
  import opened ServerLaws
  import opened ServerMoves

  /** A run: any state that satisfies the invariant, a new server among them, then each state the step of the request before it. */
  ghost predicate Run(states: seq<Server>, requests: seq<Request>) {
    && |states| == |requests| + 1
    && Inv(states[0])
    && (forall i :: 0 <= i < |requests| ==> Sound(states[i]))
    && (forall i :: 0 <= i < |requests| ==> Fresh(states[i], requests[i]))
    && (forall i :: 0 <= i < |requests| ==> states[i + 1] == Step(states[i], requests[i]).0)
  }

  /** A new server satisfies the invariant, so every run may start from one. */
  lemma NewServerInv(start: Time, minVersion: string, maxStreamAge: int)
    ensures Inv(NewServer(start, minVersion, maxStreamAge))
  {
  }

  lemma {:induction false} RunInv(states: seq<Server>, requests: seq<Request>, i: nat)
    requires Run(states, requests) && i < |states|
    ensures Inv(states[i]) && Sound(states[i])
  {
    hide Inv, Step, Fresh, Sound, AllMove;
    if i == 0 {
      InvSound(states[0]);
    } else {
      RunInv(states, requests, i - 1);
      StepKeeps(states[i - 1], requests[i - 1]);
    }
  }

  /** Any fresh request can follow any run: the steps never need more than the invariant gives. */
  lemma RunExtends(states: seq<Server>, requests: seq<Request>, r: Request)
    requires Run(states, requests) && Fresh(states[|requests|], r)
    ensures Sound(states[|requests|])
    ensures Run(states + [Step(states[|requests|], r).0], requests + [r])
  {
    hide Inv, Step, Fresh, Sound;
    RunInv(states, requests, |requests|);
  }

  lemma {:induction false} RunMoves(states: seq<Server>, requests: seq<Request>, i: nat)
    requires Run(states, requests) && i < |requests|
    ensures Sound(states[i]) && AllMove(states[i], requests[i], states[i + 1])
  {
    hide Inv, Step, Fresh, Sound, AllMove;
    RunInv(states, requests, i);
    StepKeeps(states[i], requests[i]);
  }

  lemma {:induction false} ConnectionsStay(states: seq<Server>, requests: seq<Request>, i: nat, j: nat, id: nat)
    requires Run(states, requests) && i <= j < |states| && id in states[i].connections
    ensures id in states[j].connections
    decreases j
  {
    hide Inv, Step, Fresh, Sound, MovesFor;
    if i < j {
      ConnectionsStay(states, requests, i, j - 1, id);
      RunMoves(states, requests, j - 1);
    }
  }

  // ---------- what an open stream carries ----------

  lemma {:induction false} SameStreamContinues(states: seq<Server>, requests: seq<Request>, i: nat, j: nat, id: nat)
    requires Run(states, requests) && i <= j < |states| && id in states[i].connections && id in states[j].connections
    ensures states[i].connections[id].out.streams <= states[j].connections[id].out.streams
    ensures states[i].connections[id].out.streams == states[j].connections[id].out.streams ==>
            Continues(states[i].connections[id], states[j].connections[id])
    decreases j
  {
    hide Inv, Step, Fresh, Sound, WhyOf, Continues;
    if i == j {
      QuietContinues(states[i].connections[id], states[i].connections[id]);
    } else {
      ConnectionsStay(states, requests, i, j - 1, id);
      SameStreamContinues(states, requests, i, j - 1, id);
      RunMoves(states, requests, j - 1);
      var a, b, c := states[i].connections[id], states[j - 1].connections[id], states[j].connections[id];
      ContinuesStreams(b, c);
      if a.out.streams == c.out.streams {
        ContinuesTransitive(a, b, c);
      }
    }
  }

  lemma ContinuesStreams(c: Conn, c': Conn)
    requires Continues(c, c') || Reopened(c, c')
    ensures Continues(c, c') <==> c'.out.streams == c.out.streams
    ensures c.out.streams <= c'.out.streams
  {
  }

  /** What the stream opened between states i and i + 1 starts with. */
  ghost predicate OpensStream(states: seq<Server>, i: nat, id: nat)
    requires i + 1 < |states|
  {
    && id in states[i + 1].connections
    && (id in states[i].connections ==>
        states[i].connections[id].out.streams < states[i + 1].connections[id].out.streams)
  }

  /** The instructions of connection id in s; a connection still to come has none. */
  ghost function WorkOf(s: Server, id: nat): Work {
    if id in s.connections then s.connections[id].work else NO_WORK
  }

  lemma OpeningCarries(s: Server, r: Request, id: nat)
    requires Inv(s) && Sound(s) && Fresh(s, r)
    requires id in Step(s, r).0.connections && Open(Step(s, r).0.connections[id].out)
    requires id in s.connections ==> s.connections[id].out.streams < Step(s, r).0.connections[id].out.streams
    ensures var c' := Step(s, r).0.connections[id];
            && c'.work == WorkOf(s, id)
            && Carried(c'.out) == Keep(c'.work.order, UnreportedSet(c'.work))
  {
    hide Step, Fresh, Sound, WhyOf, Linked;
    StepLawful(s, r, id);
    var c' := Step(s, r).0.connections[id];
    if id in s.connections {
      ContinuesStreams(s.connections[id], c');
    }
  }

  /**
   On an open stream the instructions written are those unreported when it opened, in
   issue order, followed by those dispatched since.
   */
  lemma OpenStreamCarries(states: seq<Server>, requests: seq<Request>, i: nat, j: nat, id: nat)
    requires Run(states, requests) && i < j < |states| && OpensStream(states, i, id)
    requires id in states[j].connections && Open(states[j].connections[id].out)
    requires states[j].connections[id].out.streams == states[i + 1].connections[id].out.streams
    ensures var before, now := WorkOf(states[i], id), states[j].connections[id];
            && before.order <= now.work.order
            && Carried(now.out) == Keep(before.order, UnreportedSet(before)) + now.work.order[|before.order|..]
  {
    hide Step, Fresh, Sound, Inv, Carried, Keep, UnreportedSet, LogGrows, ReportsStay, WritesUnreported;
    SameStreamContinues(states, requests, i + 1, j, id);
    RunInv(states, requests, i);
    OpeningCarries(states[i], requests[i], id);
  }

  /** In every state, an open stream carries each instruction once and every unreported one. */
  lemma OpenStreamComplete(states: seq<Server>, requests: seq<Request>, i: nat, id: nat)
    requires Run(states, requests) && i < |states| && id in states[i].connections && Open(states[i].connections[id].out)
    ensures var c := states[i].connections[id];
            && Distinct(Carried(c.out))
            && Carried(c.out) == Keep(c.work.order, Elements(Carried(c.out)))
            && (forall m :: Unreported(c.work, m) ==> m in Carried(c.out))
  {
    hide Step, Fresh, Sound, Linked;
    RunInv(states, requests, i);
    var c := states[i].connections[id];
    assert Healthy(c);
    assert Distinct(c.work.order) by {
      assert forall k :: 0 <= k < |c.work.order| ==> c.work.order[k] == Asked(c.work)[k];
    }
    KeepDistinct(c.work.order, Elements(Carried(c.out)));
  }

  // ---------- nothing is written after its final report ----------

  /** Once an instruction has its final report, no later event of its connection writes it again. */
  lemma {:induction false} NeverAfterReport(states: seq<Server>, requests: seq<Request>, i: nat, j: nat, id: nat, m: string)
    requires Run(states, requests) && i <= j < |states| && id in states[i].connections && id in states[j].connections
    requires Reported(states[i].connections[id].work, m)
    ensures var c, c' := states[i].connections[id], states[j].connections[id];
            && Reported(c'.work, m) && LogGrows(c.out.log, c'.out.log)
            && forall k :: |c.out.log| <= k < |c'.out.log| && c'.out.log[k].event.Instruct? ==>
                 c'.out.log[k].event.messageID != m
    decreases j
  {
    hide Step, Fresh, Sound, Inv, WhyOf, Continues, Reopened, Asked;
    if i < j {
      ConnectionsStay(states, requests, i, j - 1, id);
      NeverAfterReport(states, requests, i, j - 1, id, m);
      RunMoves(states, requests, j - 1);
      var b, c' := states[j - 1].connections[id], states[j].connections[id];
      assert c'.out.log[..|b.out.log|] == b.out.log;
      assert forall k :: 0 <= k < |b.out.log| ==> c'.out.log[k] == b.out.log[k];
    }
  }

  // ---------- staging ----------

  /** The instructions that the first n requests asked of connection id, in order. */
  ghost function AskedBy(states: seq<Server>, requests: seq<Request>, n: nat, id: nat): seq<string>
    requires n <= |requests| < |states|
  {
    if n == 0 then []
    else
      var r := requests[n - 1];
      var before := AskedBy(states, requests, n - 1, id);
      if r.Ask? && Live(states[n - 1], r.instanceID).1 == Some(id) then before + [r.instruction.messageID] else before
  }

  lemma {:induction false} NothingAskedYet(states: seq<Server>, requests: seq<Request>, n: nat, id: nat)
    requires Run(states, requests) && n < |states| && id !in states[n].connections
    ensures AskedBy(states, requests, n, id) == []
  {
    hide Step, Fresh, Sound, Inv, MovesFor;
    if n > 0 {
      RunMoves(states, requests, n - 1);
      NothingAskedYet(states, requests, n - 1, id);
    }
  }

  /** On every connection the issue order followed by the queue is exactly the order asked. */
  lemma {:induction false} IssuedThenQueuedIsAsked(states: seq<Server>, requests: seq<Request>, n: nat, id: nat)
    requires Run(states, requests) && states[0].connections == map[] && n < |states| && id in states[n].connections
    ensures states[n].connections[id].work.order + Ids(states[n].connections[id].work.queue) ==
            AskedBy(states, requests, n, id)
  {
    hide Step, Fresh, Sound, Inv, Continues, Reopened, LogGrows, ReportsStay, WritesUnreported, LedgerStays;
    var s, r := states[n - 1], requests[n - 1];
    RunInv(states, requests, n - 1);
    if id in s.connections {
      IssuedThenQueuedIsAsked(states, requests, n - 1, id);
      RunMoves(states, requests, n - 1);
    } else {
      NothingAskedYet(states, requests, n - 1, id);
      NewWork(s, r, id);
      assert r.Ask? ==> Live(s, r.instanceID).1 != Some(id);
    }
  }

  lemma NewWork(s: Server, r: Request, id: nat)
    requires Inv(s) && Sound(s) && Fresh(s, r) && id !in s.connections && id in Step(s, r).0.connections
    ensures Step(s, r).0.connections[id].work == NO_WORK
  {
    hide Step, Fresh, Sound, Healthy, MovesFor, WhyOf;
    StepLawful(s, r, id);
  }

  /**
   Nothing is issued before ready is accepted, at most 64 instructions before the first
   Session report is stored, and the queue is nonempty only while one of those limits holds.
   */
  lemma StagingLimits(states: seq<Server>, requests: seq<Request>, n: nat, id: nat)
    requires Run(states, requests) && n < |states| && id in states[n].connections
    ensures var c := states[n].connections[id];
            && (!c.readyAccepted ==> c.work.order == [])
            && (!c.work.firstReportStored ==> |c.work.order| <= STAGING_LIMIT)
            && (c.work.queue != [] ==> !c.readyAccepted || (!c.work.firstReportStored && |c.work.order| == STAGING_LIMIT))
  {
    hide Step, Fresh, Sound, Linked;
    RunInv(states, requests, n);
    assert Healthy(states[n].connections[id]);
  }
}
