/**
 What an abandoned load leaves behind, how many passes a waiting call makes, and how far
 apart forced refreshes are.
 */
module IssuerLoads {
  import opened Options
  import opened IssuerCache
  import opened IssuerLaws
  import opened IssuerSteps
  import opened IssuerRuns
  import opened IssuerKeys

  // ---------- abandonment ----------

  /** While a load is in flight nothing but its end touches the entry. */
  lemma UntouchedInFlight(s: System, step: Step, s': System, c: CallID)
    requires Inv(s) && IssuersMove(s, step, s') && c in s.calls && s.calls[c].phase.Leading?
    requires !(step.End? && step.call == c)
    ensures var n := s.calls[c].phase.issuer;
            n < |s.v.issuers| && n < |s'.v.issuers| && s'.v.issuers[n] == s.v.issuers[n]
  {
  }

  lemma {:induction false} BegunStays(states: seq<System>, steps: seq<Step>, i: nat, j: nat, n: nat, e: Issuer)
    requires Run(states, steps) && i < j < |states| && i < |steps| && LeadsOn(states[i], steps[i], states[i + 1], n, e)
    requires var c := steps[i].call; c in states[j].calls && states[j].calls[c].phase.Leading?
    ensures var c := steps[i].call;
            && c in states[i].calls
            && states[j].calls[c].phase == Leading(n, e.lastAttempt, e.lastForced)
            && n < |states[j].v.issuers| && states[j].v.issuers[n] == Begun(e, c, states[i].calls[c].kid, states[i].v.now)
  {
    hide Next, Can, Sound, Inv, IssuersMove;
    var c := steps[i].call;
    if i + 1 < j {
      RunInv(states, steps, j - 1);
      LeadingStays(states, steps, i + 1, j - 1, c);
      PhaseMoves(states[j - 1], steps[j - 1], c);
      BegunStays(states, steps, i, j - 1, n, e);
      EndReturns(states[j - 1], steps[j - 1]);
      RunMoves(states, steps, j - 1);
      UntouchedInFlight(states[j - 1], steps[j - 1], states[j], c);
    }
  }

  lemma EndReturns(s: System, step: Step)
    requires Sound(s) && Can(s, step)
    ensures step.End? ==> step.call in Next(s, step).calls && Next(s, step).calls[step.call].phase.Returned?
  {
  }

  /**
   An abandoned refresh leaves its entry exactly as it was before it began: keys, validity,
   last error, last attempt and last forced time.
   */
  lemma AbandonedLeavesNoTrace(states: seq<System>, steps: seq<Step>, i: nat, j: nat, n: nat, e: Issuer)
    requires Run(states, steps) && i < j < |steps| && LeadsOn(states[i], steps[i], states[i + 1], n, e)
    requires steps[j].End? && steps[j].call == steps[i].call && steps[j].call in states[j].calls
    requires states[j].calls[steps[j].call].phase.Leading? && Abandons(steps[j].outcome, steps[j].ended)
    ensures n < |states[j + 1].v.issuers| && states[j + 1].v.issuers[n] == e
    ensures n < |states[i].v.issuers| ==> states[j + 1].v.issuers[n] == states[i].v.issuers[n]
  {
    hide Next, Sound, Inv, IssuersMove, Settled, Begun, Can;
    BegunStays(states, steps, i, j, n, e);
    RunMoves(states, steps, j);
    assert EndsOn(states[j], steps[j], n);
    AbandonRestores(states[j].v, n, e, steps[i].call, states[i].calls[steps[i].call].kid, states[i].v.now, steps[j].outcome);
  }

  lemma AbandonRestores(v: Verifier, n: nat, e: Issuer, call: CallID, kid: string, began: Time, outcome: Outcome)
    requires n < |v.issuers| && v.issuers[n] == Begun(e, call, kid, began) && e.refreshing.None? && outcome.LoadError?
    ensures Settled(v, n, outcome, true, e.lastAttempt, e.lastForced) == e
  {
  }

  // ---------- passes ----------

  function PassesOf(steps: seq<Step>, k: nat, c: CallID): nat
    requires k <= |steps|
  {
    if k == 0 then 0 else PassesOf(steps, k - 1, c) + if steps[k - 1].Try? && steps[k - 1].call == c then 1 else 0
  }

  /** The step wakes c from a load its leader abandoned, so that c passes again. */
  ghost predicate Again(s: System, step: Step, c: CallID) {
    && step == Wake(c) && c in s.calls && s.calls[c].phase.Joined?
    && s.calls[c].phase.leader in s.v.loads && s.v.loads[s.calls[c].phase.leader].abandoned
  }

  /** The leaders whose abandoned loads made c pass again. */
  ghost function Charged(states: seq<System>, steps: seq<Step>, k: nat, c: CallID): set<CallID>
    requires k <= |steps| < |states|
  {
    if k == 0 then {}
    else if Again(states[k - 1], steps[k - 1], c) then
      Charged(states, steps, k - 1, c) + {states[k - 1].calls[c].phase.leader}
    else Charged(states, steps, k - 1, c)
  }

  lemma PassLoads(v: Verifier, call: CallID, rule: RuleKey, kid: string, evict: Option<string>, evictEntry: Option<RuleKey>)
    requires CacheOK(v) && PassChoice(v, rule, evict, evictEntry)
    ensures forall k :: k in v.cache ==> v.cache[k] < |v.issuers|
    ensures var (v', verdict) := Pass(v, call, rule, kid, evict, evictEntry);
            v'.loads == if verdict.Lead? then v.loads[call := Refresh(false, false)] else v.loads
  {
    PassKeeps(v, call, rule, kid, evict, evictEntry);
    hide Pass, PassChoice, CacheOK;
  }

  /** A load that has ended stays ended, as it ended. */
  lemma LoadsStay(s: System, step: Step, d: CallID)
    requires Inv(s) && Sound(s) && Can(s, step) && d in s.v.loads && s.v.loads[d].done
    ensures d in Next(s, step).v.loads && Next(s, step).v.loads[d] == s.v.loads[d]
  {
    assert LoadOK(s, d, s.v.loads[d]);
    if step.Try? {
      var c := s.calls[step.call];
      PassLoads(s.v, step.call, c.rule, c.kid, step.evict, step.evictEntry);
    }
    hide Pass, PassChoice, CacheOK, Inv, Settled, LeaderResult;
  }

  /**
   Where call c stands after k steps: its charged leaders are other calls whose loads were
   abandoned, it has not rejoined one of them, and it has passed once and once more for each.
   */
  ghost predicate PassesCharged(s: System, c: CallID, passes: nat, charged: set<CallID>) {
    && (forall d :: d in charged ==> d != c && d in s.v.loads && s.v.loads[d].done && s.v.loads[d].abandoned)
    && (if c !in s.calls then passes == 0 && charged == {}
        else passes + (if s.calls[c].phase.Top? then 1 else 0) == 1 + |charged|)
    && (c in s.calls && s.calls[c].phase.Joined? ==> s.calls[c].phase.leader !in charged)
  }

  /** A call joins a load in flight only. */
  lemma JoinsInFlight(s: System, step: Step)
    requires Inv(s) && Sound(s) && Can(s, step) && step.Try?
    ensures var s' := Next(s, step);
            && step.call in s'.calls && !s'.calls[step.call].phase.Top?
            && (s'.calls[step.call].phase.Joined? ==>
                s'.calls[step.call].phase.leader in s'.v.loads && !s'.v.loads[s'.calls[step.call].phase.leader].done)
  {
    var c := s.calls[step.call];
    PassKeeps(s.v, step.call, c.rule, c.kid, step.evict, step.evictEntry);
    StepKeeps(s, step);
    var s' := Next(s, step);
    hide Pass, PassChoice, CacheOK, Prepares, Leads;
    if s'.calls[step.call].phase.Joined? {
      var phase := s'.calls[step.call].phase;
      assert FlightOK(s', phase.issuer, s'.v.issuers[phase.issuer]);
      assert LeaderOK(s', phase.leader, s'.calls[phase.leader]);
    }
  }

  lemma ChargedStay(s: System, step: Step, charged: set<CallID>)
    requires Inv(s) && Sound(s) && Can(s, step)
    requires forall d :: d in charged ==> d in s.v.loads && s.v.loads[d].done
    ensures forall d :: d in charged ==> d in Next(s, step).v.loads && Next(s, step).v.loads[d] == s.v.loads[d]
  {
    hide Next, Inv, Sound;
    forall d | d in charged
      ensures d in Next(s, step).v.loads && Next(s, step).v.loads[d] == s.v.loads[d]
    {
      LoadsStay(s, step, d);
    }
  }

  lemma ChargePass(s: System, step: Step, c: CallID, passes: nat, charged: set<CallID>)
    requires Inv(s) && Sound(s) && Can(s, step) && PassesCharged(s, c, passes, charged) && step.Try? && step.call == c
    ensures PassesCharged(Next(s, step), c, passes + 1, charged)
  {
    ChargedStay(s, step, charged);
    JoinsInFlight(s, step);
    hide Next, Inv, Sound, PassChoice;
  }

  lemma ChargeAgain(s: System, step: Step, c: CallID, passes: nat, charged: set<CallID>)
    requires Inv(s) && Sound(s) && Can(s, step) && PassesCharged(s, c, passes, charged) && Again(s, step, c)
    ensures PassesCharged(Next(s, step), c, passes, charged + {s.calls[c].phase.leader})
  {
  }

  lemma ChargeNothing(s: System, step: Step, c: CallID, passes: nat, charged: set<CallID>)
    requires Inv(s) && Sound(s) && Can(s, step) && PassesCharged(s, c, passes, charged)
    requires !Again(s, step, c) && !(step.Try? && step.call == c)
    ensures PassesCharged(Next(s, step), c, passes, charged)
  {
    ChargedStay(s, step, charged);
    OtherPhase(s, step, c);
    hide Next, Inv, Sound, Again, PassChoice;
  }

  /** What other steps do to a call: start it, or leave it joined, or end it. */
  lemma OtherPhase(s: System, step: Step, c: CallID)
    requires Sound(s) && Can(s, step) && !(step.Try? && step.call == c) && !Again(s, step, c)
    ensures var s' := Next(s, step);
            if c in s.calls then
              c in s'.calls && (s'.calls[c] == s.calls[c] || (s'.calls[c].phase.Returned? && !s.calls[c].phase.Top?))
            else c in s'.calls ==> s'.calls[c].phase.Top?
  {
  }

  lemma {:induction false} RunCharges(states: seq<System>, steps: seq<Step>, k: nat, c: CallID)
    requires Run(states, steps) && k <= |steps|
    ensures PassesCharged(states[k], c, PassesOf(steps, k, c), Charged(states, steps, k, c))
  {
    hide Next, Can, Sound, Inv, PassesCharged, Again;
    if k > 0 {
      RunCharges(states, steps, k - 1, c);
      RunInv(states, steps, k - 1);
      var s, step, charged := states[k - 1], steps[k - 1], Charged(states, steps, k - 1, c);
      if step.Try? && step.call == c {
        NotBoth(s, step, c);
        ChargePass(s, step, c, PassesOf(steps, k - 1, c), charged);
      } else if Again(s, step, c) {
        ChargeAgain(s, step, c, PassesOf(steps, k - 1, c), charged);
      } else {
        ChargeNothing(s, step, c, PassesOf(steps, k - 1, c), charged);
      }
    } else {
      NothingCharged(states, steps, c);
    }
  }

  lemma NotBoth(s: System, step: Step, c: CallID)
    requires step.Try?
    ensures !Again(s, step, c)
  {
  }

  lemma NothingCharged(states: seq<System>, steps: seq<Step>, c: CallID)
    requires Run(states, steps)
    ensures PassesCharged(states[0], c, 0, {})
  {
  }

  /** The calls that led a load and abandoned it because their own context ended. */
  ghost function Quitters(s: System): set<CallID> {
    set d | d in s.calls && d in s.v.loads && s.v.loads[d].abandoned && s.calls[d].phase == Returned(Failed(CallerEnded))
  }

  /** A call passes once, and once more for each of at most as many other calls as have quit. */
  lemma PassesBounded(states: seq<System>, steps: seq<Step>, k: nat, c: CallID)
    requires Run(states, steps) && k <= |steps|
    ensures PassesOf(steps, k, c) <= 1 + |Quitters(states[k]) - {c}|
    ensures c in states[k].calls ==> PassesOf(steps, k, c) <= |states[k].calls|
  {
    hide Next, Can, Sound;
    RunCharges(states, steps, k, c);
    RunInv(states, steps, k);
    var s, charged := states[k], Charged(states, steps, k, c);
    forall d | d in charged
      ensures d in Quitters(s) - {c}
    {
      assert LoadOK(s, d, s.v.loads[d]);
    }
    Fewer(charged, Quitters(s) - {c});
    Fewer(Quitters(s) - {c}, s.calls.Keys - {c});
  }

  lemma Fewer<T>(a: set<T>, b: set<T>)
    requires a <= b
    ensures |a| <= |b|
  {
    assert b == a + (b - a);
  }

  // ---------- forced refreshes ----------

  /** The recorded forced time of entry n is at least t, and so is the one a leader may restore. */
  ghost predicate Holds(s: System, n: nat, t: Time, first: CallID) {
    && n < |s.v.issuers| && s.v.issuers[n].lastForced.Some? && s.v.issuers[n].lastForced.value >= t
    && (forall c :: c in s.calls && c != first && s.calls[c].phase.Leading? && s.calls[c].phase.issuer == n ==>
          s.calls[c].phase.previousForced.Some? && s.calls[c].phase.previousForced.value >= t)
  }

  lemma HoldsStep(s: System, step: Step, s': System, n: nat, t: Time, first: CallID)
    requires Inv(s) && IssuersMove(s, step, s') && t <= s.v.now && Holds(s, n, t, first)
    requires EndsOn(s, step, n) ==> s'.v.issuers[n] == Ended(s, step)
    requires forall c :: c in s'.calls && s'.calls[c].phase.Leading? ==>
      (c in s.calls && s'.calls[c] == s.calls[c]) || (step.Try? && step.call == c)
    requires step.End? && step.call == first ==> !Abandons(step.outcome, step.ended)
    ensures Holds(s', n, t, first)
  {
  }

  lemma {:induction false} HoldsOn(states: seq<System>, steps: seq<Step>, i: nat, k: nat, n: nat, t: Time, first: CallID)
    requires Run(states, steps) && i <= k < |states| && t <= states[i].v.now && Holds(states[i], n, t, first)
    requires forall m :: i <= m < k && steps[m].End? && steps[m].call == first ==> !Abandons(steps[m].outcome, steps[m].ended)
    ensures Holds(states[k], n, t, first) && t <= states[k].v.now
  {
    hide Next, Can, Sound, Inv, Holds, IssuersMove;
    if i < k {
      HoldsOn(states, steps, i, k - 1, n, t, first);
      RunInv(states, steps, k - 1);
      RunMoves(states, steps, k - 1);
      LeadersStay(states[k - 1], steps[k - 1]);
      TTLStays(states[k - 1], steps[k - 1], states[k]);
      InEntries(states[k - 1], n, t, first);
      HoldsStep(states[k - 1], steps[k - 1], states[k], n, t, first);
    }
  }

  lemma InEntries(s: System, n: nat, t: Time, first: CallID)
    requires Holds(s, n, t, first)
    ensures n < |s.v.issuers|
  {
  }

  lemma LeadersStay(s: System, step: Step)
    requires Sound(s) && Can(s, step)
    ensures forall c :: c in Next(s, step).calls && Next(s, step).calls[c].phase.Leading? ==>
      (c in s.calls && Next(s, step).calls[c] == s.calls[c]) || (step.Try? && step.call == c)
  {
  }

  /** The step begins a refresh of entry n forced by a key ID its keys lack. */
  ghost predicate Forces(s: System, step: Step, s': System, n: nat, e: Issuer) {
    LeadsOn(s, step, s', n, e) && e.keys.Some? && KnownKey(e, s.calls[step.call].kid).None?
  }

  /** A recorded forced refresh bars the next one of an entry with still-valid keys for 30 seconds. */
  lemma ForcedRefreshesApart(states: seq<System>, steps: seq<Step>, i: nat, k: nat, n: nat, e: Issuer, later: Issuer)
    requires Run(states, steps) && i < k < |steps|
    requires Forces(states[i], steps[i], states[i + 1], n, e) && Forces(states[k], steps[k], states[k + 1], n, later)
    requires BeforeTime(states[k].v.now, later.validUntil)
    requires forall m :: i < m < k && steps[m].End? && steps[m].call == steps[i].call ==> !Abandons(steps[m].outcome, steps[m].ended)
    ensures states[k].v.now >= states[i].v.now + COOLDOWN
  {
    hide Next, Can, Sound, Inv, IssuersMove;
    RunInv(states, steps, i + 1);
    RunMoves(states, steps, i);
    TTLStays(states[i], steps[i], states[i + 1]);
    FirstHolds(states[i + 1], n, states[i].v.now, steps[i].call);
    HoldsOn(states, steps, i + 1, k, n, states[i].v.now, steps[i].call);
  }

  lemma FirstHolds(s: System, n: nat, t: Time, first: CallID)
    requires Inv(s) && n < |s.v.issuers| && s.v.issuers[n].lastForced == Some(t) && s.v.issuers[n].refreshing == Some(first)
    ensures Holds(s, n, t, first)
  {
  }
}
