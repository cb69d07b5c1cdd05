/**
 What every interleaving of calls keeps of the issuer key cache: its bounds, one revision
 per rule, and the match between entries, loads in flight and the calls that lead or join.
 */
module IssuerLaws {
  import opened Options
  import opened IssuerCache

  // ---------- the cache ----------

  /** One cached revision per rule, the registered one; a load in flight in the cache is for it. */
  ghost predicate EntryOK(v: Verifier, k: RuleKey, n: nat) {
    && n < |v.issuers| && v.issuers[n].rule == k
    && (k.id in v.current ==> v.current[k.id] == k.revision)
    && (v.issuers[n].refreshing.Some? ==> k.id in v.current)
  }

  ghost predicate OnePerRule(cache: map<RuleKey, nat>) { forall a, b :: a in cache && b in cache && a.id == b.id ==> a == b }

  ghost predicate Bounded(v: Verifier) { |v.cache| <= MAX_ENTRIES && |v.current| <= MAX_ENTRIES }

  ghost predicate CacheOK(v: Verifier) {
    Bounded(v) && OnePerRule(v.cache) && forall k :: k in v.cache ==> EntryOK(v, k, v.cache[k])
  }

  /** All a pass may change before it judges: what is cached and registered, and new blank entries. */
  ghost predicate Prepares(v: Verifier, v': Verifier) {
    && v' == v.(cache := v'.cache, current := v'.current, issuers := v'.issuers)
    && v.issuers <= v'.issuers
    && (forall n :: |v.issuers| <= n < |v'.issuers| ==> v'.issuers[n] == Blank(v'.issuers[n].rule))
    && (forall k :: k in v'.cache ==> (k in v.cache && v'.cache[k] == v.cache[k]) || v'.cache[k] >= |v.issuers|)
  }

  lemma Smaller<K, V>(a: map<K, V>, b: map<K, V>)
    requires a.Keys <= b.Keys
    ensures |a| <= |b|
  {
    assert b.Keys == a.Keys + (b.Keys - a.Keys);
    assert |a.Keys| <= |b.Keys|;
  }

  lemma Put<K, V>(m: map<K, V>, k: K, x: V)
    ensures |m[k := x]| == |m| + if k in m then 0 else 1
  {
  }

  lemma RegisterKeeps(v: Verifier, rule: RuleKey, evict: Option<string>)
    requires CacheOK(v) && RegisterChoice(v, rule, evict)
    ensures var (v', ok) := Register(v, rule, evict);
            CacheOK(v') && Prepares(v, v') && (ok ==> Registered(v', rule)) && v'.issuers == v.issuers
  {
    if !Registered(v, rule) {
      var (v', ok) := Register(v, rule, evict);
      Smaller(v'.cache, v.cache);
      RegisterBounded(v, rule, evict);
      forall k | k in v'.cache
        ensures EntryOK(v', k, v'.cache[k])
      {
        assert EntryOK(v, k, v.cache[k]);
      }
    }
  }

  lemma RegisterBounded(v: Verifier, rule: RuleKey, evict: Option<string>)
    requires |v.current| <= MAX_ENTRIES
    ensures |Register(v, rule, evict).0.current| <= MAX_ENTRIES
  {
  }

  /** The rule has no entry, so its id has none: the entry put in is the only one. */
  lemma NoOther(v: Verifier, rule: RuleKey)
    requires CacheOK(v) && Registered(v, rule) && rule !in v.cache
    ensures forall k :: k in v.cache ==> k.id != rule.id
  {
  }

  lemma EntriesStay(v: Verifier, v': Verifier, k: RuleKey)
    requires k in v.cache && EntryOK(v, k, v.cache[k]) && v'.current == v.current && v.issuers <= v'.issuers
    ensures EntryOK(v', k, v.cache[k])
  {
  }

  lemma DropKeeps(v: Verifier, k: RuleKey)
    requires CacheOK(v)
    ensures var v' := v.(cache := v.cache - {k}); CacheOK(v') && Prepares(v, v')
  {
  }

  function Inserted(v: Verifier, rule: RuleKey): Verifier {
    v.(cache := v.cache[rule := |v.issuers|], issuers := v.issuers + [Blank(rule)])
  }

  lemma InsertKeeps(v: Verifier, rule: RuleKey)
    requires CacheOK(v) && Registered(v, rule) && rule !in v.cache && |v.cache| < MAX_ENTRIES
    ensures CacheOK(Inserted(v, rule)) && Prepares(v, Inserted(v, rule))
  {
    var v' := Inserted(v, rule);
    NoOther(v, rule);
    Put(v.cache, rule, |v.issuers|);
    forall k | k in v'.cache
      ensures EntryOK(v', k, v'.cache[k])
    {
      if k in v.cache {
        EntriesStay(v, v', k);
      }
    }
  }

  lemma SelectKeeps(v: Verifier, rule: RuleKey, evict: Option<RuleKey>)
    requires CacheOK(v) && Registered(v, rule)
    ensures var (v', ok) := Select(v, rule, evict);
            CacheOK(v') && Prepares(v, v') && (ok ==> Registered(v', rule) && rule in v'.cache)
  {
    hide CacheOK, Prepares;
    var v1 := if |v.cache| >= MAX_ENTRIES && evict.Some? then v.(cache := v.cache - {evict.value}) else v;
    PreparesSelf(v);
    if |v.cache| >= MAX_ENTRIES && evict.Some? {
      DropKeeps(v, evict.value);
    }
    if rule !in v.cache && |v1.cache| < MAX_ENTRIES {
      InsertKeeps(v1, rule);
      PreparesTrans(v, v1, Inserted(v1, rule));
    }
  }

  lemma PreparesTrans(a: Verifier, b: Verifier, c: Verifier)
    requires Prepares(a, b) && Prepares(b, c) && b.issuers == a.issuers
    ensures Prepares(a, c)
  {
  }

  lemma PrepareKeeps(v: Verifier, rule: RuleKey, evict: Option<string>, evictEntry: Option<RuleKey>)
    requires CacheOK(v) && RegisterChoice(v, rule, evict)
    ensures var (v', ok) := Prepare(v, rule, evict, evictEntry);
            CacheOK(v') && Prepares(v, v') && (ok ==> Registered(v', rule) && rule in v'.cache)
  {
    hide Register, Select, CacheOK, Prepares, Registered, RegisterChoice, SelectChoice;
    RegisterKeeps(v, rule, evict);
    var (v1, ok) := Register(v, rule, evict);
    if ok {
      SelectKeeps(v1, rule, evictEntry);
      PreparesTrans(v, v1, Select(v1, rule, evictEntry).0);
    }
  }

  // ---------- entries ----------

  /** The verdict of a pass, with the state it was judged in. */
  lemma PassKeeps(v: Verifier, call: CallID, rule: RuleKey, kid: string, evict: Option<string>, evictEntry: Option<RuleKey>)
    requires CacheOK(v) && PassChoice(v, rule, evict, evictEntry)
    ensures forall k :: k in v.cache ==> v.cache[k] < |v.issuers|
    ensures var (v', verdict) := Pass(v, call, rule, kid, evict, evictEntry);
            CacheOK(v') && (!verdict.Lead? ==> Prepares(v, v'))
    ensures var (v', verdict) := Pass(v, call, rule, kid, evict, evictEntry);
            verdict.Lead? ==> exists v1 :: Prepares(v, v1) && Leads(v1, v', call, rule, kid, verdict)
    ensures var (v', verdict) := Pass(v, call, rule, kid, evict, evictEntry);
            verdict.Join? ==> Joins(v', rule, verdict)
  {
    InRange(v);
    PreparesSelf(v);
    if Proceeds(v, rule) {
      PrepareKeeps(v, rule, evict, evictEntry);
      var (v1, ok) := Prepare(v, rule, evict, evictEntry);
      InRange(v1);
      hide Prepare, PassChoice, CacheOK, Prepares, Judge, Leads, Joins, Registered;
      if ok {
        JudgeKeeps(v1, call, rule, kid);
      }
    }
  }

  lemma InRange(v: Verifier)
    requires CacheOK(v)
    ensures forall k :: k in v.cache ==> v.cache[k] < |v.issuers|
  {
  }

  lemma PreparesSelf(v: Verifier)
    ensures Prepares(v, v)
  {
  }

  /** The pass leads a new load on the rule's entry. */
  ghost predicate Leads(v: Verifier, v': Verifier, call: CallID, rule: RuleKey, kid: string, verdict: Verdict) {
    && verdict.Lead? && verdict.issuer < |v.issuers|
    && var n, e := verdict.issuer, v.issuers[verdict.issuer];
    && e.rule == rule && e.refreshing.None? && v.refreshes < MAX_REFRESHES
    && verdict == Lead(n, e.lastAttempt, e.lastForced)
    && (KnownKey(e, kid).None? && BeforeTime(v.now, e.validUntil) ==> !Cooling(v.now, e.lastForced))
    && v' == v.(refreshes := v.refreshes + 1, issuers := v.issuers[n := Begun(e, call, kid, v.now)],
                loads := v.loads[call := Refresh(false, false)])
  }

  ghost predicate Joins(v: Verifier, rule: RuleKey, verdict: Verdict) {
    && verdict.Join? && verdict.issuer < |v.issuers| && v.issuers[verdict.issuer].rule == rule
    && v.issuers[verdict.issuer].refreshing == Some(verdict.leader)
  }

  lemma JudgeKeeps(v: Verifier, call: CallID, rule: RuleKey, kid: string)
    requires CacheOK(v) && rule in v.cache && Registered(v, rule)
    ensures v.cache[rule] < |v.issuers|
    ensures var (v', verdict) := Judge(v, call, v.cache[rule], kid);
            && CacheOK(v')
            && (if verdict.Lead? then Leads(v, v', call, rule, kid, verdict) else v' == v)
            && (verdict.Join? ==> Joins(v', rule, verdict))
  {
    assert EntryOK(v, rule, v.cache[rule]);
    var (v', verdict) := Judge(v, call, v.cache[rule], kid);
    forall k | k in v'.cache
      ensures EntryOK(v', k, v'.cache[k])
    {
      assert EntryOK(v, k, v.cache[k]);
    }
  }

  // ---------- calls and loads ----------

  ghost predicate LeaderOK(s: System, c: CallID, call: Call) {
    call.phase.Leading? ==>
      && call.phase.issuer < |s.v.issuers|
      && s.v.issuers[call.phase.issuer].refreshing == Some(c)
      && s.v.issuers[call.phase.issuer].rule == call.rule
      && c in s.v.loads && s.v.loads[c] == Refresh(false, false)
  }

  /** A joined load is led by another call, on an entry of the same rule. */
  ghost predicate JoinedOK(s: System, c: CallID, call: Call) {
    call.phase.Joined? ==>
      && call.phase.issuer < |s.v.issuers|
      && s.v.issuers[call.phase.issuer].rule == call.rule
      && call.phase.leader in s.v.loads && call.phase.leader != c
  }

  ghost predicate LoadOK(s: System, c: CallID, load: Refresh) {
    && c in s.calls
    && (if load.done then s.calls[c].phase.Returned? else s.calls[c].phase.Leading? && !load.abandoned)
    && (load.abandoned ==> s.calls[c].phase == Returned(Failed(CallerEnded)))
  }

  ghost predicate FlightOK(s: System, n: nat, e: Issuer) {
    e.refreshing.Some? ==>
      e.refreshing.value in s.calls && s.calls[e.refreshing.value].phase.Leading? && s.calls[e.refreshing.value].phase.issuer == n
  }

  ghost function InFlight(s: System): set<CallID> { set c | c in s.calls && s.calls[c].phase.Leading? }

  ghost predicate CallsOK(s: System) {
    && (forall c :: c in s.calls ==> LeaderOK(s, c, s.calls[c]))
    && (forall c :: c in s.calls ==> JoinedOK(s, c, s.calls[c]))
    && (forall c :: c in s.v.loads ==> LoadOK(s, c, s.v.loads[c]))
    && (forall n :: 0 <= n < |s.v.issuers| ==> FlightOK(s, n, s.v.issuers[n]))
  }

  ghost predicate Counted(s: System) { s.v.refreshes == |InFlight(s)| && s.v.refreshes <= MAX_REFRESHES }

  ghost predicate Inv(s: System) { CacheOK(s.v) && CallsOK(s) && Counted(s) }
}
