/**
 The transport over whole runs: what a drain waits for, where requests go, and when a
 generation is let go.
 */
module TransportRuns {
  import opened Options
  import opened Transports
  import opened TransportLaws

  // ---------- every step keeps the invariant ----------

  lemma ReleaseCounts(s: System, r: RequestID)
    requires Inv(s) && r in s.requests && (s.requests[r].Sent? || s.requests[r].Body?)
    ensures var g := s.requests[r].generation;
            var t1 := Set(s.t, g, s.t.generations[g].(users := s.t.generations[g].users - 1));
            && CountsOK(System(t1, s.requests[r := Released(g)])) && Shape(t1) && Counting(t1)
            && ((t1.generations[g].users == 0 && t1.retired == Some(g)) || Drains(t1))
  {
    var g := s.requests[r].generation;
    var t1 := Set(s.t, g, s.t.generations[g].(users := s.t.generations[g].users - 1));
    assert r in Users(s.requests, g);
    forall i: nat | i < |t1.generations|
      ensures t1.generations[i].users == |Users(s.requests[r := Released(g)], i)|
    {
      UsersMove(s.requests, r, Released(g), g, i);
    }
  }

  lemma ReleaseKeeps(s: System, r: RequestID)
    requires Inv(s) && r in s.requests && (s.requests[r].Sent? || s.requests[r].Body?)
    ensures Inv(ReleaseOne(s, r))
  {
    var g := s.requests[r].generation;
    var t1 := Set(s.t, g, s.t.generations[g].(users := s.t.generations[g].users - 1));
    ReleaseCounts(s, r);
    hide Shape, CountsOK, Finish;
    if t1.generations[g].users == 0 && t1.retired == Some(g) {
      FinishKeeps(t1, g);
      CountsFrame(System(t1, s.requests[r := Released(g)]), Finish(t1, g));
    }
  }

  lemma AdmitKeeps(s: System, r: RequestID, now: Time)
    requires Inv(s) && r !in s.requests
    ensures Inv(AdmitOne(s, r, now))
  {
    var s' := AdmitOne(s, r, now);
    forall i: nat | i < |s'.t.generations|
      ensures s'.t.generations[i].users == |Users(s'.requests, i)|
    {
      if Admits(s.t, now) {
        UsersMove(s.requests, r, Sent(s.t.active), s.t.active, i);
      } else {
        assert Users(s'.requests, i) == Users(s.requests, i);
      }
    }
  }

  lemma BodyKeeps(s: System, r: RequestID)
    requires Inv(s) && r in s.requests && s.requests[r].Sent?
    ensures Inv(s.(requests := s.requests[r := Body(s.requests[r].generation)]))
  {
    var g := s.requests[r].generation;
    forall i: nat | i < |s.t.generations|
      ensures |Users(s.requests[r := Body(g)], i)| == |Users(s.requests, i)|
    {
      UsersMove(s.requests, r, Body(g), g, i);
    }
  }

  /** Any change of generations that keeps the user counts. */
  lemma FrameKeeps(s: System, t': Transport)
    requires Inv(s) && GenerationsOK(t') && InRange(t') && |s.t.generations| <= |t'.generations|
    requires forall g :: 0 <= g < |s.t.generations| ==> t'.generations[g].users == s.t.generations[g].users
    requires forall g :: |s.t.generations| <= g < |t'.generations| ==> t'.generations[g].users == 0
    ensures Inv(s.(t := t'))
  {
  }

  lemma QuietKeeps(s: System, step: Step)
    requires Inv(s) && Can(s, step) && (step.Rotate? || step.Dial? || step.Hangup? || step.Stop? || step.Shut?)
    ensures Inv(Next(s, step))
  {
  }

  lemma SwitchKeeps(s: System, step: Step)
    requires Inv(s) && (step.Activation? || (step.Timer? && s.t.retired == Some(step.generation)))
    ensures Inv(s.(t := if step.Activation? then Activate(s.t) else Finish(s.t, step.generation)))
  {
    AllCounting(s);
    hide Shape, Drains, Activate, Finish, CountsOK;
    if step.Activation? {
      ActivateKeeps(s.t);
      FrameKeeps(s, Activate(s.t));
    } else {
      FinishKeeps(s.t, step.generation);
      FrameKeeps(s, Finish(s.t, step.generation));
    }
  }

  lemma StepKeeps(s: System, step: Step)
    requires Inv(s) && Can(s, step)
    ensures Inv(Next(s, step))
  {
    hide GenerationsOK, CountsOK, Activate, Finish, ReleaseOne, AdmitOne;
    match step
    case Activation => SwitchKeeps(s, step);
    case Timer(g) =>
      if s.t.retired == Some(g) {
        SwitchKeeps(s, step);
      }
    case Admit(r, now) => AdmitKeeps(s, r, now);
    case Respond(r, response) =>
      if response.WithBody? {
        BodyKeeps(s, r);
      } else {
        ReleaseKeeps(s, r);
      }
    case Read(r, failed) =>
      if failed && s.requests[r].Body? {
        ReleaseKeeps(s, r);
      }
    case CloseBody(r) =>
      if s.requests[r].Body? {
        ReleaseKeeps(s, r);
      }
    case _ => QuietKeeps(s, step);
  }

  ghost predicate Run(states: seq<System>, steps: seq<Step>) {
    && |states| == |steps| + 1
    && Inv(states[0])
    && (forall i :: 0 <= i < |steps| ==> InRangeAll(states[i]) && Can(states[i], steps[i]))
    && (forall i :: 0 <= i < |steps| ==> states[i + 1] == Next(states[i], steps[i]))
  }

  lemma NewSystemInv(roots: string, expires: Time)
    ensures Inv(NewSystem(roots, expires))
  {
  }

  lemma {:induction false} RunInv(states: seq<System>, steps: seq<Step>, k: nat)
    requires Run(states, steps) && k < |states|
    ensures Inv(states[k])
  {
    hide Inv, Next, Can, InRangeAll;
    if k > 0 {
      RunInv(states, steps, k - 1);
      StepKeeps(states[k - 1], steps[k - 1]);
    }
  }

  // ---------- drains ----------

  /** While not stopped: a draining generation has an unreleased request, and a deferred activation waits for one. */
  lemma DrainHasUser(states: seq<System>, steps: seq<Step>, k: nat)
    requires Run(states, steps) && k < |states| && !states[k].t.stopped
    ensures states[k].t.retired.Some? ==> Users(states[k].requests, states[k].t.retired.value) != {}
    ensures states[k].t.pending ==> states[k].t.retired.Some?
    ensures states[k].t.retired != Some(states[k].t.active)
  {
    RunInv(states, steps, k);
    var s := states[k];
    if s.t.retired.Some? {
      assert s.t.generations[s.t.retired.value].users == |Users(s.requests, s.t.retired.value)|;
    }
  }

  lemma DrainEnds(s: System, step: Step)
    requires Inv(s) && Can(s, step) && s.t.retired.Some? && Next(s, step).t.retired != s.t.retired
    ensures var s' := Next(s, step);
            && InRange(s'.t) && s.t.retired.value < |s'.t.generations|
            && s'.t.generations[s.t.retired.value].closed && s'.t.owner == s.t.owner && !s'.t.pending
            && (s.t.pending && s.t.owner.Trust? ==> s'.t.generations[s'.t.active].roots == s.t.owner.roots)
            && (s'.t.retired.None? || s'.t.retired == Some(s.t.active))
  {
    AllCounting(s);
    match step
    case Activation => ActivateKeeps(s.t);
    case Timer(g) => FinishKeeps(s.t, g);
    case Respond(r, _) => ReleaseEnds(s, r);
    case Read(r, _) => ReleaseEnds(s, r);
    case CloseBody(r) => ReleaseEnds(s, r);
    case _ =>
  }

  lemma ReleaseEnds(s: System, r: RequestID)
    requires Inv(s) && r in s.requests && !s.requests[r].Refused? && s.t.retired.Some?
    requires s.requests[r].Sent? || s.requests[r].Body?
    requires ReleaseOne(s, r).t.retired != s.t.retired
    ensures var s' := ReleaseOne(s, r);
            && InRange(s'.t) && s.t.retired.value < |s'.t.generations|
            && s'.t.generations[s.t.retired.value].closed && s'.t.owner == s.t.owner && !s'.t.pending
            && (s.t.pending && s.t.owner.Trust? ==> s'.t.generations[s'.t.active].roots == s.t.owner.roots)
            && (s'.t.retired.None? || s'.t.retired == Some(s.t.active))
  {
    var g := s.requests[r].generation;
    var t1 := Set(s.t, g, s.t.generations[g].(users := s.t.generations[g].users - 1));
    ReleaseCounts(s, r);
    hide Shape, CountsOK, Finish;
    if t1.retired == Some(g) {
      FinishKeeps(t1, g);
    }
  }

  /** A deferred activation is made when the drain it waited for ends: the owner's trust is active then. */
  lemma DeferredActivationHappens(states: seq<System>, steps: seq<Step>, k: nat)
    requires Run(states, steps) && k < |steps| && states[k].t.pending && states[k].t.retired != states[k + 1].t.retired
    ensures !states[k + 1].t.pending
    ensures InRange(states[k + 1].t)
    ensures states[k].t.owner.Trust? ==>
      states[k + 1].t.generations[states[k + 1].t.active].roots == states[k].t.owner.roots
  {
    RunInv(states, steps, k);
    RunInv(states, steps, k + 1);
    DrainEnds(states[k], steps[k]);
  }

  // ---------- generations never return ----------

  /** The generation has been let go: it is neither active nor draining. */
  ghost predicate Gone(t: Transport, g: nat) { g < t.active && t.retired != Some(g) }

  lemma ActiveGrows(s: System, step: Step)
    requires Inv(s) && Can(s, step)
    ensures var t, t' := s.t, Next(s, step).t;
            && t.active <= t'.active && |t.generations| <= |t'.generations|
            && (t'.retired == t.retired || t'.retired.None? || t'.retired == Some(t.active))
  {
    AllCounting(s);
    var s' := Next(s, step);
    StepKeeps(s, step);
    if s.t.retired.Some? && s'.t.retired != s.t.retired {
      DrainEnds(s, step);
    }
    match step
    case Activation => ActivateKeeps(s.t);
    case Timer(g) =>
      if s.t.retired == Some(g) {
        FinishKeeps(s.t, g);
      }
    case _ => RequestsGrow(s, step);
  }

  lemma ReleaseGrows(s: System, r: RequestID)
    requires Inv(s) && r in s.requests && (s.requests[r].Sent? || s.requests[r].Body?)
    ensures |s.t.generations| <= |ReleaseOne(s, r).t.generations|
    ensures s.t.retired.None? ==> ReleaseOne(s, r).t.retired.None?
  {
    ReleaseCounts(s, r);
    var g := s.requests[r].generation;
    var t1 := Set(s.t, g, s.t.generations[g].(users := s.t.generations[g].users - 1));
    hide Shape, CountsOK, Finish;
    if t1.retired == Some(g) {
      FinishKeeps(t1, g);
    }
  }

  lemma RequestsGrow(s: System, step: Step)
    requires Inv(s) && Can(s, step) && !step.Activation? && !step.Timer?
    ensures |s.t.generations| <= |Next(s, step).t.generations|
    ensures s.t.retired.None? ==> Next(s, step).t.retired.None?
  {
    if step.Respond? || step.Read? || step.CloseBody? {
      if s.requests[step.request].Sent? || s.requests[step.request].Body? {
        ReleaseGrows(s, step.request);
      }
    }
    hide ReleaseOne, Inv;
  }

  /** Let go once, let go for ever; a generation that stopped being active is never active again. */
  lemma {:induction false} GoneForEver(states: seq<System>, steps: seq<Step>, i: nat, j: nat, g: nat)
    requires Run(states, steps) && i <= j < |states|
    ensures states[i].t.active <= states[j].t.active
    ensures Gone(states[i].t, g) ==> Gone(states[j].t, g)
  {
    hide Next, Can, Inv, InRangeAll;
    if i < j {
      GoneForEver(states, steps, i, j - 1, g);
      RunInv(states, steps, j - 1);
      ActiveGrows(states[j - 1], steps[j - 1]);
    }
  }

  /** No request is admitted to a generation that has been retired. */
  lemma NoneAdmittedToRetired(states: seq<System>, steps: seq<Step>, i: nat, j: nat, g: nat)
    requires Run(states, steps) && i <= j < |steps| && g < states[i].t.active && steps[j].Admit?
    ensures var r := steps[j].request;
            r in states[j + 1].requests && states[j + 1].requests[r] != Sent(g)
    ensures states[j + 1].requests[steps[j].request].Sent? ==>
      states[j + 1].requests[steps[j].request].generation == states[j].t.active && states[j].t.retired != Some(states[j].t.active)
  {
    GoneForEver(states, steps, i, j, g);
    RunInv(states, steps, j);
  }

  /** The timer of a generation that has been let go does nothing, whatever drains by then. */
  lemma StaleTimerDoesNothing(states: seq<System>, steps: seq<Step>, i: nat, j: nat, g: nat)
    requires Run(states, steps) && i <= j < |steps| && Gone(states[i].t, g) && steps[j] == Timer(g)
    ensures states[j + 1] == states[j]
  {
    GoneForEver(states, steps, i, j, g);
  }

  // ---------- releases ----------

  lemma RequestsMove(s: System, step: Step, r: RequestID)
    requires InRangeAll(s) && Can(s, step) && r in s.requests
    ensures r in Next(s, step).requests
    ensures s.requests[r].Released? || s.requests[r].Refused? ==> Next(s, step).requests[r] == s.requests[r]
    ensures s.requests[r].Sent? || s.requests[r].Body? ==>
      !Next(s, step).requests[r].Refused? && Next(s, step).requests[r].generation == s.requests[r].generation
  {
  }

  /** A request keeps the generation it was admitted to, and once released it stays released. */
  lemma {:induction false} ReleasedForEver(states: seq<System>, steps: seq<Step>, i: nat, j: nat, r: RequestID)
    requires Run(states, steps) && i <= j < |states| && r in states[i].requests && !states[i].requests[r].Refused?
    ensures r in states[j].requests && !states[j].requests[r].Refused?
    ensures states[j].requests[r].generation == states[i].requests[r].generation
    ensures states[i].requests[r].Released? ==> states[j].requests[r].Released?
  {
    hide Next, Can, Inv, InRangeAll;
    if i < j {
      ReleasedForEver(states, steps, i, j - 1, r);
      RequestsMove(states[j - 1], steps[j - 1], r);
    }
  }

  /** The step releases request r: an answer without a body, or the first end of its body. */
  predicate ReleasesRequest(s: System, step: Step, r: RequestID) {
    && (step.Respond? || step.Read? || step.CloseBody?) && step.request == r && r in s.requests
    && match step
       case Respond(_, response) => !response.WithBody?
       case Read(_, failed) => failed && s.requests[r].Body?
       case _ => s.requests[r].Body?
  }

  function ReleasesOf(states: seq<System>, steps: seq<Step>, k: nat, r: RequestID): nat
    requires k <= |steps| < |states|
  {
    if k == 0 then 0
    else ReleasesOf(states, steps, k - 1, r) + if ReleasesRequest(states[k - 1], steps[k - 1], r) then 1 else 0
  }

  lemma ReleasesMove(s: System, step: Step, r: RequestID)
    requires InRangeAll(s) && Can(s, step)
    ensures var s' := Next(s, step);
            && (r in s'.requests && s'.requests[r].Released? <==>
                (r in s.requests && s.requests[r].Released?) || ReleasesRequest(s, step, r))
            && (ReleasesRequest(s, step, r) ==> !(r in s.requests && s.requests[r].Released?))
            && (ReleasesRequest(s, step, r) ==>
                var g := s.requests[r].generation; s'.t == Release(s.t, g) && s.requests[r] in {Sent(g), Body(g)})
  {
  }

  /** Over a run each request is released exactly once if it is released at all: once by the end, or not yet. */
  lemma {:induction false} ReleasedExactlyOnce(states: seq<System>, steps: seq<Step>, k: nat, r: RequestID)
    requires Run(states, steps) && k <= |steps| && states[0].requests == map[]
    ensures ReleasesOf(states, steps, k, r) == if r in states[k].requests && states[k].requests[r].Released? then 1 else 0
  {
    hide Next, Can, Inv, InRangeAll, ReleasesRequest;
    if k > 0 {
      ReleasedExactlyOnce(states, steps, k - 1, r);
      ReleasesMove(states[k - 1], steps[k - 1], r);
    }
  }

  /** The step admits a request to g. */
  predicate AdmitsTo(s: System, step: Step, s': System, g: nat) {
    step.Admit? && step.request in s'.requests && s'.requests[step.request] == Sent(g)
  }

  /** The step releases a request from g. */
  predicate ReleasesFrom(s: System, step: Step, s': System, g: nat) {
    && (step.Respond? || step.Read? || step.CloseBody?)
    && step.request in s.requests && step.request in s'.requests
    && s.requests[step.request] in {Sent(g), Body(g)} && s'.requests[step.request] == Released(g)
  }

  function Admissions(states: seq<System>, steps: seq<Step>, k: nat, g: nat): nat
    requires k <= |steps| < |states|
  {
    if k == 0 then 0
    else Admissions(states, steps, k - 1, g) + if AdmitsTo(states[k - 1], steps[k - 1], states[k], g) then 1 else 0
  }

  function Releases(states: seq<System>, steps: seq<Step>, k: nat, g: nat): nat
    requires k <= |steps| < |states|
  {
    if k == 0 then 0
    else Releases(states, steps, k - 1, g) + if ReleasesFrom(states[k - 1], steps[k - 1], states[k], g) then 1 else 0
  }

  lemma UsersDelta(s: System, step: Step, g: nat)
    requires Inv(s) && Can(s, step)
    ensures var s' := Next(s, step);
            |Users(s'.requests, g)| == |Users(s.requests, g)| + (if AdmitsTo(s, step, s', g) then 1 else 0)
                                       - (if ReleasesFrom(s, step, s', g) then 1 else 0)
  {
    var s' := Next(s, step);
    if s'.requests != s.requests {
      var r := step.request;
      var after := s'.requests[r];
      if after.Refused? {
        assert Users(s'.requests, g) == Users(s.requests, g);
      } else {
        UsersMove(s.requests, r, after, after.generation, g);
      }
    }
  }

  /** The user count of a generation is the number of requests admitted to it less the number released. */
  lemma {:induction false} UsersAreAdmittedLessReleased(states: seq<System>, steps: seq<Step>, k: nat, g: nat)
    requires Run(states, steps) && k <= |steps| && g < |states[k].t.generations| && states[0].requests == map[]
    ensures states[k].t.generations[g].users == Admissions(states, steps, k, g) - Releases(states, steps, k, g)
  {
    RunInv(states, steps, k);
    UsersOverRun(states, steps, k, g);
  }

  lemma {:induction false} UsersOverRun(states: seq<System>, steps: seq<Step>, k: nat, g: nat)
    requires Run(states, steps) && k <= |steps| && states[0].requests == map[]
    ensures |Users(states[k].requests, g)| == Admissions(states, steps, k, g) - Releases(states, steps, k, g)
  {
    hide Next, Can, Inv, InRangeAll, AdmitsTo, ReleasesFrom;
    if k > 0 {
      UsersOverRun(states, steps, k - 1, g);
      RunInv(states, steps, k - 1);
      UsersDelta(states[k - 1], steps[k - 1], g);
    } else {
      assert Users(map[], g) == {};
    }
  }

  // ---------- pinning ----------

  lemma ActivateCloses(t: Transport, g: nat)
    requires GenerationsOK(t) && Counting(t) && !t.stopped && g < |t.generations| && !t.generations[g].closed
    ensures g < |Activate(t).generations| && (Activate(t).generations[g].closed ==> t.generations[g].users == 0)
  {
  }

  lemma FinishCloses(t: Transport, drained: nat, g: nat)
    requires Shape(t) && t.retired == Some(drained) && Counting(t) && !t.stopped && g < |t.generations| && !t.generations[g].closed
    ensures g < |Finish(t, drained).generations|
    ensures Finish(t, drained).generations[g].closed ==> g == drained || t.generations[g].users == 0
  {
    var t1 := CloseGeneration(t, drained).(retired := None, pending := false);
    assert GenerationsOK(t1) && Counting(t1);
    if g != drained {
      ActivateCloses(t1, g);
    }
  }

  lemma ReleaseCloses(s: System, r: RequestID, g: nat)
    requires Inv(s) && r in s.requests && (s.requests[r].Sent? || s.requests[r].Body?)
    requires !s.t.stopped && g < |s.t.generations| && !s.t.generations[g].closed
    ensures g < |ReleaseOne(s, r).t.generations|
    ensures ReleaseOne(s, r).t.generations[g].closed ==> ReleaseOne(s, r).t.generations[g].users == 0
  {
    var h := s.requests[r].generation;
    var t1 := Set(s.t, h, s.t.generations[h].(users := s.t.generations[h].users - 1));
    ReleaseCounts(s, r);
    hide Shape, CountsOK, Finish;
    if t1.generations[h].users == 0 && t1.retired == Some(h) {
      FinishKeeps(t1, h);
      FinishCloses(t1, h, g);
    }
  }

  /**
   An unreleased request pins its generation: while the transport runs, a generation is closed
   only when its last user is gone or by its own timer.
   */
  lemma ClosedOnlyUnused(s: System, step: Step, g: nat)
    requires Inv(s) && Can(s, step) && !s.t.stopped && g < |s.t.generations| && !s.t.generations[g].closed
    requires g < |Next(s, step).t.generations| && Next(s, step).t.generations[g].closed
    ensures step == Timer(g) || Users(Next(s, step).requests, g) == {}
  {
    StepKeeps(s, step);
    var s' := Next(s, step);
    assert s'.t.generations[g].users == |Users(s'.requests, g)|;
    AllCounting(s);
    hide Shape, Drains, Activate, Finish, CountsOK, ReleaseOne;
    match step
    case Activation =>
      ActivateKeeps(s.t);
      ActivateCloses(s.t, g);
    case Timer(h) =>
      if s.t.retired == Some(h) {
        FinishKeeps(s.t, h);
        FinishCloses(s.t, h, g);
      }
    case Respond(r, response) =>
      if !response.WithBody? {
        ReleaseCloses(s, r, g);
      }
    case Read(r, _) =>
      if s.requests[r].Body? {
        ReleaseCloses(s, r, g);
      }
    case CloseBody(r) =>
      if s.requests[r].Body? {
        ReleaseCloses(s, r, g);
      }
    case _ =>
  }
}
