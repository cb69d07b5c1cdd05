/**
 Where a returned key comes from, and which loads publish nothing.
 */
module IssuerKeys {
  import opened Options
  import opened IssuerCache
  import opened IssuerLaws
  import opened IssuerSteps
  import opened IssuerRuns

  /** Step j is the end of a successful load that is published into entry n. */
  ghost predicate PublishedAt(s: System, step: Step, n: nat) {
    EndsOn(s, step, n) && n < |s.v.issuers| && Publishes(s.v, n, step.outcome)
  }

  /** The keys of e are those published into n at step j, with the times that go with them. */
  ghost predicate HoldsFrom(states: seq<System>, steps: seq<Step>, j: nat, n: nat, e: Issuer)
    requires |states| == |steps| + 1
  {
    && j < |steps| && PublishedAt(states[j], steps[j], n)
    && e.rule == states[j].v.issuers[n].rule == states[j].calls[steps[j].call].rule
    && e.keys == Some(steps[j].outcome.keys)
    && e.validUntil == Some(states[j].v.now + states[0].v.ttl)
    && e.refreshAfter == Some(states[j].v.now + states[0].v.ttl * 9 / 10)
  }

  /** An entry without keys has no validity; one with keys has them from one publication before step k. */
  ghost predicate Sourced(states: seq<System>, steps: seq<Step>, k: nat, n: nat, e: Issuer)
    requires |states| == |steps| + 1
  {
    if e.keys.None? then e.validUntil.None? && e.refreshAfter.None?
    else exists j :: 0 <= j < k && HoldsFrom(states, steps, j, n, e)
  }

  lemma {:induction false} SameTTL(states: seq<System>, steps: seq<Step>, k: nat)
    requires Run(states, steps) && k < |states|
    ensures states[k].v.ttl == states[0].v.ttl
  {
    hide Next, Can, Sound, IssuersMove;
    if k > 0 {
      SameTTL(states, steps, k - 1);
      RunMoves(states, steps, k - 1);
      TTLStays(states[k - 1], steps[k - 1], states[k]);
    }
  }

  lemma TTLStays(s: System, step: Step, s': System)
    requires IssuersMove(s, step, s')
    ensures s'.v.ttl == s.v.ttl && |s.v.issuers| <= |s'.v.issuers| && s.v.now <= s'.v.now
  {
  }

  /** The keys and validity of an entry stay, or are those just published. */
  lemma KeysMove(s: System, step: Step, s': System, n: nat)
    requires IssuersMove(s, step, s') && n < |s'.v.issuers|
    requires EndsOn(s, step, n) && n < |s.v.issuers| ==> s'.v.issuers[n] == Ended(s, step)
    requires s.v.ttl == s'.v.ttl
    ensures var e' := s'.v.issuers[n];
            if PublishedAt(s, step, n) then
              e' == Published(s.v.issuers[n], step.outcome.keys, s.v.now, s.v.ttl).(
                lastForced := e'.lastForced, lastAttempt := e'.lastAttempt, refreshing := e'.refreshing, lastError := e'.lastError)
            else if n < |s.v.issuers| then
              e' == s.v.issuers[n].(
                lastForced := e'.lastForced, lastAttempt := e'.lastAttempt, refreshing := e'.refreshing, lastError := e'.lastError)
            else e'.keys.None? && e'.validUntil.None? && e'.refreshAfter.None?
  {
  }

  lemma {:induction false} KeysSourced(states: seq<System>, steps: seq<Step>, k: nat, n: nat)
    requires Run(states, steps) && k < |states| && n < |states[k].v.issuers|
    ensures Sourced(states, steps, k, n, states[k].v.issuers[n])
  {
    hide Next, Can, Sound, IssuersMove, Inv, Published;
    if k > 0 {
      RunMoves(states, steps, k - 1);
      SameTTL(states, steps, k);
      SameTTL(states, steps, k - 1);
      var s, step, s' := states[k - 1], steps[k - 1], states[k];
      KeysMove(s, step, s', n);
      if PublishedAt(s, step, n) {
        LeaderRule(states, steps, k - 1, n);
        PublishedHolds(states, steps, k - 1, n, s'.v.issuers[n]);
      } else if n < |s.v.issuers| {
        KeysSourced(states, steps, k - 1, n);
        SourceStays(states, steps, k, n, s.v.issuers[n], s'.v.issuers[n]);
      }
    }
  }

  lemma LeaderRule(states: seq<System>, steps: seq<Step>, j: nat, n: nat)
    requires Run(states, steps) && j < |steps| && EndsOn(states[j], steps[j], n)
    ensures n < |states[j].v.issuers| && states[j].v.issuers[n].rule == states[j].calls[steps[j].call].rule
  {
    hide Next, Can, Sound;
    RunInv(states, steps, j);
    assert LeaderOK(states[j], steps[j].call, states[j].calls[steps[j].call]);
  }

  lemma PublishedHolds(states: seq<System>, steps: seq<Step>, j: nat, n: nat, e: Issuer)
    requires |states| == |steps| + 1 && j < |steps| && PublishedAt(states[j], steps[j], n)
    requires states[j].v.issuers[n].rule == states[j].calls[steps[j].call].rule && states[j].v.ttl == states[0].v.ttl
    requires e == Published(states[j].v.issuers[n], steps[j].outcome.keys, states[j].v.now, states[j].v.ttl).(
      lastForced := e.lastForced, lastAttempt := e.lastAttempt, refreshing := e.refreshing, lastError := e.lastError)
    ensures Sourced(states, steps, j + 1, n, e)
  {
    assert HoldsFrom(states, steps, j, n, e);
  }

  lemma SourceStays(states: seq<System>, steps: seq<Step>, k: nat, n: nat, e: Issuer, e': Issuer)
    requires |states| == |steps| + 1 && k > 0 && Sourced(states, steps, k - 1, n, e)
    requires e' == e.(lastForced := e'.lastForced, lastAttempt := e'.lastAttempt, refreshing := e'.refreshing, lastError := e'.lastError)
    ensures Sourced(states, steps, k, n, e')
  {
    if e.keys.Some? {
      var j :| 0 <= j < k - 1 && HoldsFrom(states, steps, j, n, e);
      assert HoldsFrom(states, steps, j, n, e');
    }
  }

  // ---------- returned keys ----------

  /** The step ends call c with a key. */
  ghost predicate Returns(s: System, s': System, c: CallID, key: PublicKey) {
    && c in s'.calls && s'.calls[c].phase == Returned(Found(key))
    && !(c in s.calls && s.calls[c].phase.Returned?)
  }

  /** Entry n of s holds the key for the call, and its validity is not over. */
  ghost predicate Offers(s: System, call: Call, n: nat, key: PublicKey) {
    && n < |s.v.issuers| && s.v.issuers[n].rule == call.rule
    && KnownKey(s.v.issuers[n], call.kid) == Some(key)
    && (BeforeTime(s.v.now, s.v.issuers[n].validUntil) || BeforeTime(s.v.now, s.v.issuers[n].refreshAfter))
  }

  lemma JudgeOffers(v: Verifier, call: CallID, n: nat, kid: string)
    requires n < |v.issuers|
    ensures var (v', verdict) := Judge(v, call, n, kid);
            verdict.Return? && verdict.result.Found? ==>
              && v' == v && KnownKey(v.issuers[n], kid) == Some(verdict.result.key)
              && (BeforeTime(v.now, v.issuers[n].validUntil) || BeforeTime(v.now, v.issuers[n].refreshAfter))
  {
  }

  lemma PassOffers(v: Verifier, call: CallID, rule: RuleKey, kid: string, evict: Option<string>, evictEntry: Option<RuleKey>)
    returns (n: nat)
    requires CacheOK(v) && PassChoice(v, rule, evict, evictEntry)
    requires forall k :: k in v.cache ==> v.cache[k] < |v.issuers|
    requires var verdict := Pass(v, call, rule, kid, evict, evictEntry).1; verdict.Return? && verdict.result.Found?
    ensures var (v', verdict) := Pass(v, call, rule, kid, evict, evictEntry);
            && n < |v'.issuers| && v'.issuers[n].rule == rule && v'.now == v.now
            && KnownKey(v'.issuers[n], kid) == Some(verdict.result.key)
            && (BeforeTime(v.now, v'.issuers[n].validUntil) || BeforeTime(v.now, v'.issuers[n].refreshAfter))
  {
    PrepareKeeps(v, rule, evict, evictEntry);
    var v1 := Prepare(v, rule, evict, evictEntry).0;
    n := v1.cache[rule];
    assert EntryOK(v1, rule, n);
    hide Prepare, PassChoice, CacheOK, Judge;
    JudgeOffers(v1, call, n, kid);
  }

  /** Whoever returns a key has it from an entry of its own rule, whose validity is not over. */
  lemma FoundOffered(s: System, step: Step, c: CallID, key: PublicKey) returns (n: nat)
    requires Inv(s) && Sound(s) && Can(s, step) && Returns(s, Next(s, step), c, key)
    ensures c in s.calls && Offers(Next(s, step), s.calls[c], n, key)
  {
    match step
    case Try(call, evict, evictEntry) =>
      n := PassOffers(s.v, call, s.calls[call].rule, s.calls[call].kid, evict, evictEntry);
      hide Pass, PassChoice, CallsOK, CacheOK;
    case Wake(call) =>
      n := s.calls[call].phase.issuer;
      assert JoinedOK(s, call, s.calls[call]);
    case End(call, outcome, ended) =>
      n := s.calls[call].phase.issuer;
      assert LeaderOK(s, call, s.calls[call]);
    case _ =>
  }

  /**
   In every interleaving a returned key came from a successful load, led for exactly the call's
   rule and revision, whose keys were published less than one lifetime ago.
   */
  lemma ReturnedKeyWasPublished(states: seq<System>, steps: seq<Step>, k: nat, c: CallID, key: PublicKey) returns (j: nat)
    requires Run(states, steps) && k < |steps| && Returns(states[k], states[k + 1], c, key)
    ensures c in states[k].calls && j <= k && steps[j].End? && steps[j].call in states[j].calls
    ensures var leader := states[j].calls[steps[j].call];
            && leader.phase.Leading? && PublishedAt(states[j], steps[j], leader.phase.issuer)
            && leader.rule == states[k].calls[c].rule
            && states[k].calls[c].kid in steps[j].outcome.keys
            && steps[j].outcome.keys[states[k].calls[c].kid] == key
    ensures states[k + 1].v.now < states[j].v.now + states[0].v.ttl
  {
    hide Next, Can, Sound, Inv, IssuersMove;
    RunInv(states, steps, k);
    var n := FoundOffered(states[k], steps[k], c, key);
    KeysSourced(states, steps, k + 1, n);
    var e := states[k + 1].v.issuers[n];
    j :| 0 <= j < k + 1 && HoldsFrom(states, steps, j, n, e);
  }

  // ---------- loads that publish nothing ----------

  ghost predicate Uncached(v: Verifier, n: nat) { n < |v.issuers| && forall k :: k in v.cache ==> v.cache[k] != n }

  /** An entry out of the cache never comes back. */
  lemma {:induction false} StaysUncached(states: seq<System>, steps: seq<Step>, i: nat, j: nat, n: nat)
    requires Run(states, steps) && i <= j < |states| && Uncached(states[i].v, n)
    ensures Uncached(states[j].v, n)
  {
    hide Next, Can, Sound;
    if i < j {
      StaysUncached(states, steps, i, j - 1, n);
      RunMoves(states, steps, j - 1);
    }
  }

  /** A load in flight whose entry is not the cached one of the registered revision is out of the cache. */
  lemma Superseded(s: System, c: CallID)
    requires Inv(s) && c in s.calls && s.calls[c].phase.Leading?
    requires var rule, n := s.calls[c].rule, s.calls[c].phase.issuer;
             !Registered(s.v, rule) || rule !in s.v.cache || s.v.cache[rule] != n
    ensures Uncached(s.v, s.calls[c].phase.issuer)
  {
  }

  lemma PhaseMoves(s: System, step: Step, c: CallID)
    requires Sound(s) && Can(s, step) && c in s.calls
    ensures var s' := Next(s, step);
            && c in s'.calls
            && (s.calls[c].phase.Leading? ==> s'.calls[c] == s.calls[c] || s'.calls[c].phase.Returned?)
            && (s.calls[c].phase.Returned? ==> s'.calls[c] == s.calls[c])
  {
  }

  /** A call leads one load at most: it leads, and then it has returned. */
  lemma {:induction false} LeadingStays(states: seq<System>, steps: seq<Step>, i: nat, j: nat, c: CallID)
    requires Run(states, steps) && i <= j < |states| && c in states[i].calls && states[i].calls[c].phase.Leading?
    ensures c in states[j].calls && (states[j].calls[c] == states[i].calls[c] || states[j].calls[c].phase.Returned?)
  {
    hide Next, Can, Sound;
    if i < j {
      LeadingStays(states, steps, i, j - 1, c);
      PhaseMoves(states[j - 1], steps[j - 1], c);
    }
  }

  /**
   A load that ends after another revision was registered, or after its entry was evicted (and
   perhaps recreated), at any time since it began, publishes nothing: no entry's keys change.
   */
  lemma LateLoadPublishesNothing(states: seq<System>, steps: seq<Step>, i: nat, j: nat, c: CallID)
    requires Run(states, steps) && i <= j < |steps| && steps[j].End? && steps[j].call == c
    requires c in states[i].calls && states[i].calls[c].phase.Leading? && c in states[j].calls
    requires states[j].calls[c].phase.Leading?
    requires var rule, n := states[i].calls[c].rule, states[i].calls[c].phase.issuer;
             !Registered(states[i].v, rule) || rule !in states[i].v.cache || states[i].v.cache[rule] != n
    ensures |states[j + 1].v.issuers| == |states[j].v.issuers|
    ensures forall m :: 0 <= m < |states[j].v.issuers| ==>
      states[j + 1].v.issuers[m].keys == states[j].v.issuers[m].keys &&
      states[j + 1].v.issuers[m].validUntil == states[j].v.issuers[m].validUntil &&
      states[j + 1].v.issuers[m].refreshAfter == states[j].v.issuers[m].refreshAfter
  {
    hide Can, Sound, Inv;
    RunInv(states, steps, i);
    LeadingStays(states, steps, i, j, c);
    Superseded(states[i], c);
    StaysUncached(states, steps, i, j, states[i].calls[c].phase.issuer);
  }
}
