/**
 What holds over every interleaving of calls of the issuer key cache, from a new verifier on.
 */
module IssuerRuns {
  import opened Options
  import opened IssuerCache
  import opened IssuerLaws
  import opened IssuerSteps

  const SECOND: int := 1_000_000_000

  /** A run of a verifier configured within the limits of its key lifetime. */
  ghost predicate Run(states: seq<System>, steps: seq<Step>) {
    && |states| == |steps| + 1
    && SECOND <= states[0].v.ttl <= 600 * SECOND
    && states[0] == System(NewVerifier(states[0].v.now, states[0].v.ttl), map[])
    && (forall i :: 0 <= i < |steps| ==> Sound(states[i]))
    && (forall i :: 0 <= i < |steps| ==> Can(states[i], steps[i]))
    && (forall i :: 0 <= i < |steps| ==> states[i + 1] == Next(states[i], steps[i]))
  }

  lemma NewInv(now: Time, ttl: int)
    ensures Inv(System(NewVerifier(now, ttl), map[]))
  {
  }

  lemma {:induction false} RunInv(states: seq<System>, steps: seq<Step>, k: nat)
    requires Run(states, steps) && k < |states|
    ensures Inv(states[k]) && Sound(states[k])
  {
    hide Inv, Next, Can, Sound;
    if k == 0 {
      NewInv(states[0].v.now, states[0].v.ttl);
      InvSound(states[0]);
    } else {
      RunInv(states, steps, k - 1);
      StepKeeps(states[k - 1], steps[k - 1]);
    }
  }

  // ---------- bounds ----------

  /** At most 128 entries and revisions, one cached revision per rule, and it is the registered one. */
  lemma CacheBounded(states: seq<System>, steps: seq<Step>, k: nat)
    requires Run(states, steps) && k < |states|
    ensures |states[k].v.cache| <= 128 && |states[k].v.current| <= 128
    ensures forall a, b :: a in states[k].v.cache && b in states[k].v.cache && a.id == b.id ==> a == b
    ensures forall a :: a in states[k].v.cache && a.id in states[k].v.current ==> states[k].v.current[a.id] == a.revision
  {
    RunInv(states, steps, k);
    var v := states[k].v;
    forall a | a in v.cache
      ensures a.id in v.current ==> v.current[a.id] == a.revision
    {
      assert EntryOK(v, a, v.cache[a]);
    }
  }

  /** The refresh counter is the number of loads in flight, at most 16, each on an entry of its own. */
  lemma RefreshesCounted(states: seq<System>, steps: seq<Step>, k: nat)
    requires Run(states, steps) && k < |states|
    ensures states[k].v.refreshes == |InFlight(states[k])| <= 16
    ensures forall c, d :: c in InFlight(states[k]) && d in InFlight(states[k]) ==>
      (states[k].calls[c].phase.issuer == states[k].calls[d].phase.issuer ==> c == d)
  {
    RunInv(states, steps, k);
    var s := states[k];
    forall c, d | c in InFlight(s) && d in InFlight(s) && s.calls[c].phase.issuer == s.calls[d].phase.issuer
      ensures c == d
    {
      assert LeaderOK(s, c, s.calls[c]) && LeaderOK(s, d, s.calls[d]);
    }
  }

  // ---------- how an entry changes ----------

  ghost predicate EndsOn(s: System, step: Step, n: nat) {
    step.End? && step.call in s.calls && s.calls[step.call].phase.Leading? && s.calls[step.call].phase.issuer == n
  }

  /** The step makes its call lead a load on entry n, which was `e` before. */
  ghost predicate LeadsOn(s: System, step: Step, s': System, n: nat, e: Issuer) {
    && step.Try? && step.call in s.calls && step.call in s'.calls && n < |s'.v.issuers|
    && s'.calls[step.call] == s.calls[step.call].(phase := Leading(n, e.lastAttempt, e.lastForced))
    && e == (if n < |s.v.issuers| then s.v.issuers[n] else Blank(s.calls[step.call].rule))
    && e.rule == s.calls[step.call].rule && e.refreshing.None?
    && (KnownKey(e, s.calls[step.call].kid).None? && BeforeTime(s.v.now, e.validUntil) ==> !Cooling(s.v.now, e.lastForced))
    && s'.v.issuers[n] == Begun(e, step.call, s.calls[step.call].kid, s.v.now)
  }

  ghost predicate LeadsSome(s: System, step: Step, s': System, n: nat) { exists e :: LeadsOn(s, step, s', n, e) }

  /** Cached entries are old ones, still cached under the same key, or new. */
  ghost predicate CacheMoves(v: Verifier, v': Verifier) {
    && |v.issuers| <= |v'.issuers| && v'.ttl == v.ttl && v'.now >= v.now
    && (forall k :: k in v'.cache ==> (k in v.cache && v'.cache[k] == v.cache[k]) || v'.cache[k] >= |v.issuers|)
  }

  lemma LeadShape(s: System, v1: Verifier, v': Verifier, call: CallID, verdict: Verdict, step: Step, s': System)
    requires call in s.calls && Prepares(s.v, v1) && step.Try? && step.call == call
    requires Leads(v1, v', call, s.calls[call].rule, s.calls[call].kid, verdict)
    requires s' == SetPhase(s.(v := v'), call, Decided(verdict))
    ensures LeadsOn(s, step, s', verdict.issuer, v1.issuers[verdict.issuer])
    ensures forall n :: 0 <= n < |s.v.issuers| && n != verdict.issuer ==> s'.v.issuers[n] == s.v.issuers[n]
    ensures forall n :: |s.v.issuers| <= n < |s'.v.issuers| && n != verdict.issuer ==> s'.v.issuers[n] == Blank(s'.v.issuers[n].rule)
    ensures CacheMoves(s.v, s'.v)
  {
  }

  /** An entry changes only when a load on it begins or ends; new entries are blank or just begun. */
  ghost predicate IssuersMove(s: System, step: Step, s': System) {
    && CacheMoves(s.v, s'.v)
    && (forall n :: 0 <= n < |s.v.issuers| && !EndsOn(s, step, n) ==>
          s'.v.issuers[n] == s.v.issuers[n] || LeadsSome(s, step, s', n))
    && (forall n :: |s.v.issuers| <= n < |s'.v.issuers| ==>
          s'.v.issuers[n] == Blank(s'.v.issuers[n].rule) || LeadsSome(s, step, s', n))
    && (step.Try? && step.call in s'.calls && s'.calls[step.call].phase.Leading? ==> LeadsSome(s, step, s', s'.calls[step.call].phase.issuer))
  }

  lemma QuietMoves(s: System, step: Step, s': System)
    requires Prepares(s.v, s'.v) && (step.Try? && step.call in s'.calls ==> !s'.calls[step.call].phase.Leading?)
    ensures IssuersMove(s, step, s')
  {
  }

  lemma LeadMoves(s: System, v1: Verifier, v': Verifier, verdict: Verdict, step: Step)
    requires step.Try? && step.call in s.calls && Prepares(s.v, v1)
    requires Leads(v1, v', step.call, s.calls[step.call].rule, s.calls[step.call].kid, verdict)
    ensures IssuersMove(s, step, SetPhase(s.(v := v'), step.call, Decided(verdict)))
  {
    var s' := SetPhase(s.(v := v'), step.call, Decided(verdict));
    LeadShape(s, v1, v', step.call, verdict, step, s');
    assert LeadsSome(s, step, s', verdict.issuer);
    hide Leads, LeadsOn, LeadsSome, Prepares;
  }

  lemma TryMoves(s: System, step: Step)
    requires Inv(s) && Sound(s) && Can(s, step) && step.Try?
    ensures Next(s, step).calls.Keys == s.calls.Keys && IssuersMove(s, step, Next(s, step))
  {
    var call, c := step.call, s.calls[step.call];
    PassKeeps(s.v, call, c.rule, c.kid, step.evict, step.evictEntry);
    var (v', verdict) := Pass(s.v, call, c.rule, c.kid, step.evict, step.evictEntry);
    hide Pass, PassChoice, Leads, Inv, CacheOK, Joins, IssuersMove, Prepares;
    if verdict.Lead? {
      var v1 :| Prepares(s.v, v1) && Leads(v1, v', call, c.rule, c.kid, verdict);
      LeadMoves(s, v1, v', verdict, step);
    } else {
      QuietMoves(s, step, Next(s, step));
    }
  }

  lemma StepMoves(s: System, step: Step)
    requires Inv(s) && Sound(s) && Can(s, step)
    ensures step.Try? ==> step.call in Next(s, step).calls
    ensures IssuersMove(s, step, Next(s, step))
  {
    if step.Try? {
      TryMoves(s, step);
    }
  }

  lemma RunMoves(states: seq<System>, steps: seq<Step>, k: nat)
    requires Run(states, steps) && k < |steps|
    ensures IssuersMove(states[k], steps[k], states[k + 1])
    ensures forall n: nat :: EndsOn(states[k], steps[k], n) && n < |states[k].v.issuers| ==>
      n < |states[k + 1].v.issuers| && states[k + 1].v.issuers[n] == Ended(states[k], steps[k])
  {
    RunInv(states, steps, k);
    StepMoves(states[k], steps[k]);
  }

  /** The entry as the end of its load leaves it. */
  ghost function Ended(s: System, step: Step): Issuer
    requires exists n: nat :: EndsOn(s, step, n) && n < |s.v.issuers|
  {
    var phase := s.calls[step.call].phase;
    Settled(s.v, phase.issuer, step.outcome, step.ended, phase.previousAttempt, phase.previousForced)
  }
}
