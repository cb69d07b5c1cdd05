/**
 What every step keeps of the transport's generations, and what holds over every run.
 */
module TransportLaws {
  import opened Options
  import opened Transports

  // ---------- the invariant ----------

  /** One generation is active and at most one drains; every other one is closed, and closed ones hold no connection. */
  ghost predicate Shape(t: Transport) {
    && InRange(t)
    && t.active == |t.generations| - 1 && t.retired != Some(t.active)
    && (!t.stopped ==> !t.generations[t.active].closed)
    && (!t.stopped && t.retired.Some? ==> !t.generations[t.retired.value].closed)
    && (forall g :: 0 <= g < t.active && t.retired != Some(g) ==> t.generations[g].closed)
    && (forall g :: 0 <= g < |t.generations| && t.generations[g].closed ==> t.generations[g].connections == {})
  }

  /** A deferred activation waits for a drain, and a drain for a user. */
  ghost predicate Drains(t: Transport)
    requires InRange(t)
  {
    && (t.pending ==> t.retired.Some? && !t.stopped)
    && (!t.stopped && t.retired.Some? ==> t.generations[t.retired.value].users > 0)
  }

  ghost predicate GenerationsOK(t: Transport) { Shape(t) && Drains(t) }

  /** The requests that use generation g: admitted and not released. */
  ghost function Users(requests: map<RequestID, Request>, g: nat): set<RequestID> {
    set r | r in requests && (requests[r] == Sent(g) || requests[r] == Body(g))
  }

  ghost predicate CountsOK(s: System) {
    forall g: nat :: g < |s.t.generations| ==> s.t.generations[g].users == |Users(s.requests, g)|
  }

  ghost predicate Inv(s: System) { GenerationsOK(s.t) && InRangeAll(s) && CountsOK(s) }

  // ---------- generations ----------

  /** What a change of generations leaves alone: the user counts, and the trust of those there were. */
  ghost predicate KeepsUsers(t: Transport, t': Transport) {
    && |t.generations| <= |t'.generations|
    && (forall g :: 0 <= g < |t.generations| ==>
          t'.generations[g].users == t.generations[g].users && t'.generations[g].roots == t.generations[g].roots)
    && (forall g :: |t.generations| <= g < |t'.generations| ==> t'.generations[g].users == 0)
    && t'.owner == t.owner && t'.stopped == t.stopped
  }

  ghost predicate Counting(t: Transport) { forall g :: 0 <= g < |t.generations| ==> t.generations[g].users >= 0 }

  /** New trust becomes active at once if nothing drains; the old generation drains only if it is used. */
  lemma ActivateKeeps(t: Transport)
    requires GenerationsOK(t) && Counting(t)
    ensures GenerationsOK(Activate(t)) && KeepsUsers(t, Activate(t))
    ensures !t.stopped && t.owner.Trust? && t.retired.None? ==>
      Activate(t).generations[Activate(t).active].roots == t.owner.roots && !Activate(t).pending
    ensures t.retired.None? ==> Activate(t).retired.None? || Activate(t).retired == Some(t.active)
    ensures t.retired.Some? ==> Activate(t) == t.(pending := Activate(t).pending) && (t.pending ==> Activate(t).pending)
  {
  }

  /** The drain of a generation ends: it is closed, and a deferred activation happens now. */
  lemma FinishKeeps(t: Transport, g: nat)
    requires Shape(t) && t.retired == Some(g) && (t.pending ==> !t.stopped) && Counting(t)
    ensures GenerationsOK(Finish(t, g)) && KeepsUsers(t, Finish(t, g))
    ensures !Finish(t, g).pending && Finish(t, g).retired != Some(g) && Finish(t, g).generations[g].closed
    ensures t.pending && t.owner.Trust? ==> Finish(t, g).generations[Finish(t, g).active].roots == t.owner.roots
    ensures Finish(t, g).retired.None? || Finish(t, g).retired == Some(t.active)
  {
    var t1 := CloseGeneration(t, g).(retired := None, pending := false);
    assert GenerationsOK(t1) && KeepsUsers(t, t1);
    hide Shape, Drains, Activate;
    ClosedStays(t1, g);
    ActivateKeeps(t1);
  }

  lemma ClosedStays(t: Transport, g: nat)
    requires GenerationsOK(t) && Counting(t) && g < t.active && t.generations[g].closed && t.retired.None?
    ensures g < |Activate(t).generations| && Activate(t).generations[g].closed && Activate(t).retired != Some(g) && !Activate(t).pending
  {
  }

  // ---------- counts ----------

  lemma CountsFrame(s: System, t': Transport)
    requires InRangeAll(s) && CountsOK(s) && KeepsUsers(s.t, t')
    ensures CountsOK(System(t', s.requests))
  {
  }

  lemma AllCounting(s: System)
    requires CountsOK(s)
    ensures Counting(s.t)
  {
  }

  /** One request starts or stops using g, and no other generation's users change. */
  lemma UsersMove(requests: map<RequestID, Request>, r: RequestID, after: Request, g: nat, i: nat)
    requires r in requests ==> requests[r] in {Sent(g), Body(g)}
    requires after in {Sent(g), Body(g), Released(g)}
    ensures |Users(requests[r := after], i)| == |Users(requests, i)| +
            (if i == g then (if after == Released(g) then 0 else 1) - (if r in requests then 1 else 0) else 0)
  {
    var before, now := Users(requests, i), Users(requests[r := after], i);
    if i == g && after != Released(g) {
      assert now == before + {r};
    } else {
      assert now == before - {r};
    }
  }
}
