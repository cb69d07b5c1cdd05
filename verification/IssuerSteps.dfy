/**
 Every step of every call keeps the invariant of the issuer key cache.
 */
module IssuerSteps {
  import opened Options
  import opened IssuerCache
  import opened IssuerLaws

  lemma InvSound(s: System)
    requires Inv(s)
    ensures Sound(s)
  {
    InRange(s.v);
    forall c | c in s.calls
      ensures s.calls[c].phase.Joined? ==> s.calls[c].phase.issuer < |s.v.issuers|
      ensures s.calls[c].phase.Leading? ==> s.calls[c].phase.issuer < |s.v.issuers| && s.v.refreshes > 0
    {
      assert LeaderOK(s, c, s.calls[c]) && JoinedOK(s, c, s.calls[c]);
      assert s.calls[c].phase.Leading? ==> c in InFlight(s);
    }
  }

  /** A call at the top of its loop leads nothing and has led nothing. */
  lemma TopLeadsNothing(s: System, call: CallID)
    requires CallsOK(s) && (call in s.calls ==> !s.calls[call].phase.Leading? && !s.calls[call].phase.Returned?)
    ensures call !in s.v.loads
    ensures forall n :: 0 <= n < |s.v.issuers| ==> s.v.issuers[n].refreshing != Some(call)
  {
  }

  /** The entries and loads other calls rely on are still there. */
  ghost predicate Spares(s: System, v': Verifier, call: CallID) {
    && |s.v.issuers| <= |v'.issuers|
    && (forall n :: 0 <= n < |s.v.issuers| ==>
          v'.issuers[n].rule == s.v.issuers[n].rule &&
          (v'.issuers[n].refreshing == s.v.issuers[n].refreshing || s.v.issuers[n].refreshing in {None, Some(call)}))
    && (forall c :: c in s.v.loads ==> c in v'.loads && (c != call ==> v'.loads[c] == s.v.loads[c]))
    && (forall c :: c in v'.loads && c !in s.v.loads ==> c == call)
  }

  /** The calls other than `call` are in order, whatever it does. */
  lemma OthersKeep(s: System, s': System, call: CallID)
    requires CallsOK(s) && Spares(s, s'.v, call) && call in s'.calls && s'.calls == s.calls[call := s'.calls[call]]
    requires call in s.v.loads ==> call in s.calls && s.calls[call].phase.Leading?
    ensures forall c :: c in s'.calls && c != call ==> LeaderOK(s', c, s'.calls[c])
    ensures forall c :: c in s'.calls && c != call ==> JoinedOK(s', c, s'.calls[c])
    ensures forall c :: c in s'.v.loads && c != call ==> LoadOK(s', c, s'.v.loads[c])
  {
  }

  /** A load in flight on any entry is led by the call it names. */
  lemma FlightsKeep(s: System, s': System, call: CallID)
    requires CallsOK(s) && |s.v.issuers| <= |s'.v.issuers| && call in s'.calls && s'.calls == s.calls[call := s'.calls[call]]
    requires forall n :: 0 <= n < |s'.v.issuers| ==>
      || s'.v.issuers[n].refreshing.None?
      || (s'.v.issuers[n].refreshing == Some(call) && s'.calls[call].phase.Leading? && s'.calls[call].phase.issuer == n)
      || (n < |s.v.issuers| && s'.v.issuers[n].refreshing == s.v.issuers[n].refreshing != Some(call))
    ensures forall n :: 0 <= n < |s'.v.issuers| ==> FlightOK(s', n, s'.v.issuers[n])
  {
  }

  lemma CountKeeps(s: System, s': System, call: CallID)
    requires Counted(s) && call in s'.calls && s'.calls == s.calls[call := s'.calls[call]]
    requires s'.v.refreshes <= MAX_REFRESHES
    requires s'.v.refreshes == s.v.refreshes + (if s'.calls[call].phase.Leading? then 1 else 0)
                                             - (if call in s.calls && s.calls[call].phase.Leading? then 1 else 0)
    ensures Counted(s')
  {
    if s'.calls[call].phase.Leading? {
      assert InFlight(s') == InFlight(s) + {call};
    } else {
      assert InFlight(s') == InFlight(s) - {call};
    }
  }

  // ---------- the steps ----------

  lemma StartKeeps(s: System, call: CallID, rule: RuleKey, kid: string)
    requires Inv(s) && call !in s.calls
    ensures Inv(s.(calls := s.calls[call := Call(rule, kid, Top)]))
  {
    hide CacheOK, InFlight;
    var s' := s.(calls := s.calls[call := Call(rule, kid, Top)]);
    TopLeadsNothing(s, call);
    OthersKeep(s, s', call);
    FlightsKeep(s, s', call);
    CountKeeps(s, s', call);
  }

  /** A call that was not leading returns or joins. */
  lemma SettleKeeps(s: System, v': Verifier, call: CallID, phase: Phase)
    requires Inv(s) && CacheOK(v') && Prepares(s.v, v') && call in s.calls
    requires !s.calls[call].phase.Leading? && !s.calls[call].phase.Returned?
    requires match phase
             case Joined(n, leader) => Joins(v', s.calls[call].rule, Join(n, leader))
             case Leading(_, _, _) => false
             case _ => true
    ensures Inv(SetPhase(s.(v := v'), call, phase))
  {
    hide CacheOK, InFlight;
    var s' := SetPhase(s.(v := v'), call, phase);
    TopLeadsNothing(s, call);
    OthersKeep(s, s', call);
    FlightsKeep(s, s', call);
    CountKeeps(s, s', call);
    if phase.Joined? {
      assert FlightOK(s', phase.issuer, v'.issuers[phase.issuer]);
      assert LeaderOK(s, phase.leader, s.calls[phase.leader]);
    }
  }

  lemma LeadKeeps(s: System, v1: Verifier, v': Verifier, call: CallID, verdict: Verdict)
    requires Inv(s) && CacheOK(v') && Prepares(s.v, v1) && call in s.calls && s.calls[call].phase.Top?
    requires Leads(v1, v', call, s.calls[call].rule, s.calls[call].kid, verdict)
    ensures Inv(SetPhase(s.(v := v'), call, Decided(verdict)))
  {
    hide CacheOK, Counted;
    var s' := SetPhase(s.(v := v'), call, Decided(verdict));
    TopLeadsNothing(s, call);
    assert Spares(s, v', call);
    OthersKeep(s, s', call);
    FlightsKeep(s, s', call);
    LeadCounts(s, s', call);
  }

  lemma LeadCounts(s: System, s': System, call: CallID)
    requires Counted(s) && s.v.refreshes < MAX_REFRESHES && s'.v.refreshes == s.v.refreshes + 1
    requires call in s'.calls && call in s.calls && !s.calls[call].phase.Leading? && s'.calls == s.calls[call := s'.calls[call]]
    requires s'.calls[call].phase.Leading?
    ensures Counted(s')
  {
    CountKeeps(s, s', call);
  }

  lemma TryKeeps(s: System, call: CallID, evict: Option<string>, evictEntry: Option<RuleKey>)
    requires Inv(s) && Sound(s) && Can(s, Try(call, evict, evictEntry))
    ensures Inv(TryStep(s, call, evict, evictEntry))
  {
    var c := s.calls[call];
    PassKeeps(s.v, call, c.rule, c.kid, evict, evictEntry);
    var (v', verdict) := Pass(s.v, call, c.rule, c.kid, evict, evictEntry);
    hide CacheOK, CallsOK, Counted, Pass, PassChoice, Prepares, Leads, Joins;
    if verdict.Lead? {
      var v1 :| Prepares(s.v, v1) && Leads(v1, v', call, c.rule, c.kid, verdict);
      LeadKeeps(s, v1, v', call, verdict);
    } else {
      SettleKeeps(s, v', call, Decided(verdict));
    }
  }

  lemma WakeKeeps(s: System, call: CallID, phase: Phase)
    requires Inv(s) && call in s.calls && s.calls[call].phase.Joined? && (phase.Top? || phase.Returned?)
    ensures Inv(SetPhase(s, call, phase))
  {
    hide CacheOK, CallsOK, Counted;
    PreparesSelf(s.v);
    SettleKeeps(s, s.v, call, phase);
  }

  lemma FinishCache(v: Verifier, n: nat, e: Issuer)
    requires CacheOK(v) && n < |v.issuers| && e.rule == v.issuers[n].rule && e.refreshing.None?
    ensures CacheOK(v.(issuers := v.issuers[n := e]))
  {
  }

  lemma CacheDependsOn(v: Verifier, v': Verifier)
    requires CacheOK(v) && v'.cache == v.cache && v'.current == v.current && v'.issuers == v.issuers
    ensures CacheOK(v')
  {
  }

  lemma EndCalls(s: System, call: CallID, outcome: Outcome, ended: bool)
    requires CallsOK(s) && Sound(s) && Can(s, End(call, outcome, ended))
    ensures CallsOK(EndStep(s, call, outcome, ended))
  {
  }

  lemma EndKeeps(s: System, call: CallID, outcome: Outcome, ended: bool)
    requires Inv(s) && Sound(s) && Can(s, End(call, outcome, ended))
    ensures Inv(EndStep(s, call, outcome, ended))
  {
    var s' := EndStep(s, call, outcome, ended);
    var n := s.calls[call].phase.issuer;
    SettledIdle(s.v, n, outcome, ended, s.calls[call].phase.previousAttempt, s.calls[call].phase.previousForced);
    hide CacheOK, Counted, CallsOK, Settled, LeaderResult;
    EndCalls(s, call, outcome, ended);
    FinishCache(s.v, n, s'.v.issuers[n]);
    CacheDependsOn(s.v.(issuers := s'.v.issuers), s'.v);
    EndCounts(s, s', call);
  }

  lemma SettledIdle(v: Verifier, n: nat, outcome: Outcome, ended: bool, previousAttempt: Option<Time>, previousForced: Option<Time>)
    requires n < |v.issuers|
    ensures var e := Settled(v, n, outcome, ended, previousAttempt, previousForced); e.refreshing.None? && e.rule == v.issuers[n].rule
  {
  }

  lemma EndCounts(s: System, s': System, call: CallID)
    requires Counted(s) && s.v.refreshes > 0 && s'.v.refreshes == s.v.refreshes - 1
    requires call in s'.calls && call in s.calls && s.calls[call].phase.Leading? && s'.calls == s.calls[call := s'.calls[call]]
    requires !s'.calls[call].phase.Leading?
    ensures Counted(s')
  {
    CountKeeps(s, s', call);
  }

  lemma ClockKeeps(s: System, v': Verifier)
    requires Inv(s) && v' == s.v.(now := v'.now, closed := v'.closed)
    ensures Inv(s.(v := v'))
  {
  }

  lemma StepKeeps(s: System, step: Step)
    requires Inv(s) && Sound(s) && Can(s, step)
    ensures Inv(Next(s, step)) && Sound(Next(s, step))
  {
    hide Inv, TryStep, EndStep, JoinedResult;
    match step {
      case Start(call, rule, kid) => StartKeeps(s, call, rule, kid);
      case Try(call, evict, evictEntry) => TryKeeps(s, call, evict, evictEntry);
      case Wake(call) => WakeKeeps(s, call, Next(s, step).calls[call].phase);
      case Leave(call, _) => WakeKeeps(s, call, Next(s, step).calls[call].phase);
      case End(call, outcome, ended) => EndKeeps(s, call, outcome, ended);
      case Close => ClockKeeps(s, s.v.(closed := true));
      case Elapse(time) => ClockKeeps(s, s.v.(now := s.v.now + time));
    }
    InvSound(Next(s, step));
  }
}
