/**
 The issuer key cache of the assertion verifier (internal/auth/assertion_verifier.go) as
 interleaved critical sections. A call of `key` passes through the cache, and each pass
 ends in a result, in joining a load already in flight, or in leading a new one; the load
 itself happens outside the lock and ends in an arbitrary outcome. Cache entries and loads
 are objects: an entry is named by its number, a load by the call that leads it.
 */
module IssuerCache {
  import opened Options

  type Time = int
  type CallID = nat
  type PublicKey = string

  const COOLDOWN: int := 30_000_000_000
  const MAX_ENTRIES: nat := 128
  const MAX_REFRESHES: nat := 16

  datatype RuleKey = RuleKey(id: string, revision: int)

  datatype Failure = Unavailable | StaleRule | InvalidAssertion | CallerEnded | LoadFailed(text: string)

  datatype Result = Found(key: PublicKey) | Failed(failure: Failure)

  /** A cache entry; a zero time is None. `rule` is the cache key it was created under. */
  datatype Issuer = Issuer(
    rule: RuleKey, keys: Option<map<string, PublicKey>>, validUntil: Option<Time>, refreshAfter: Option<Time>,
    lastForced: Option<Time>, lastAttempt: Option<Time>, refreshing: Option<CallID>, lastError: Option<Failure>)

  datatype Refresh = Refresh(done: bool, abandoned: bool)

  datatype Verifier = Verifier(
    now: Time, ttl: int, closed: bool, cache: map<RuleKey, nat>, current: map<string, int>, refreshes: nat,
    issuers: seq<Issuer>, loads: map<CallID, Refresh>)

  datatype Outcome = Loaded(keys: map<string, PublicKey>) | LoadError(failure: Failure, interrupted: bool)

  /** What one pass decides; a leader remembers the attempt times its refresh overwrites. */
  datatype Verdict =
    | Return(result: Result)
    | Join(issuer: nat, leader: CallID)
    | Lead(issuer: nat, previousAttempt: Option<Time>, previousForced: Option<Time>)

  predicate BeforeTime(now: Time, limit: Option<Time>) { limit.Some? && now < limit.value }

  predicate Cooling(now: Time, since: Option<Time>) { since.Some? && now < since.value + COOLDOWN }

  function Blank(rule: RuleKey): Issuer { Issuer(rule, None, None, None, None, None, None, None) }

  function KnownKey(e: Issuer, kid: string): Option<PublicKey> {
    if e.keys.Some? && kid in e.keys.value then Some(e.keys.value[kid]) else None
  }

  function OrElse(key: Option<PublicKey>, valid: bool, failure: Failure): Result {
    if key.Some? && valid then Found(key.value) else Failed(failure)
  }

  // ---------- registering the rule's revision ----------

  ghost predicate Idle(v: Verifier, n: nat) { n < |v.issuers| && v.issuers[n].refreshing.None? }

  /** A registered rule that may be forgotten: none of its loads is in flight in the cache. */
  ghost predicate Spare(v: Verifier, id: string) {
    id in v.current && (RuleKey(id, v.current[id]) in v.cache ==> Idle(v, v.cache[RuleKey(id, v.current[id])]))
  }

  ghost predicate SpareEntry(v: Verifier, k: RuleKey) { k in v.cache && Idle(v, v.cache[k]) }

  function Without(cache: map<RuleKey, nat>, id: string): map<RuleKey, nat> {
    map k | k in cache && k.id != id :: cache[k]
  }

  predicate Registered(v: Verifier, rule: RuleKey) { rule.id in v.current && v.current[rule.id] == rule.revision }

  predicate NeedsRoom(v: Verifier, rule: RuleKey) { rule.id !in v.current && |v.current| >= MAX_ENTRIES }

  /** The rule's other revisions leave the cache and its revision is registered, if there is room. */
  function Register(v: Verifier, rule: RuleKey, evict: Option<string>): (Verifier, bool) {
    if Registered(v, rule) then (v, true)
    else
      var v1 := v.(cache := Without(v.cache, rule.id));
      var v2 := if NeedsRoom(v, rule) && evict.Some? then v1.(current := v1.current - {evict.value}) else v1;
      if NeedsRoom(v2, rule) then (v2, false) else (v2.(current := v2.current[rule.id := rule.revision]), true)
  }

  /** The entry of the rule, created if need and room be. */
  function Select(v: Verifier, rule: RuleKey, evict: Option<RuleKey>): (Verifier, bool) {
    if rule in v.cache then (v, true)
    else
      var v1 := if |v.cache| >= MAX_ENTRIES && evict.Some? then v.(cache := v.cache - {evict.value}) else v;
      if |v1.cache| >= MAX_ENTRIES then (v1, false)
      else (v1.(cache := v1.cache[rule := |v.issuers|], issuers := v.issuers + [Blank(rule)]), true)
  }

  /** Both, as far as they go. */
  function Prepare(v: Verifier, rule: RuleKey, evict: Option<string>, evictEntry: Option<RuleKey>): (Verifier, bool) {
    var (v1, registered) := Register(v, rule, evict);
    if registered then Select(v1, rule, evictEntry) else (v1, false)
  }

  /** The registered rule forgotten for the new one, if the search finds any. */
  ghost predicate RegisterChoice(v: Verifier, rule: RuleKey, evict: Option<string>) {
    !Registered(v, rule) && NeedsRoom(v, rule) ==>
      var v1 := v.(cache := Without(v.cache, rule.id));
      if evict.Some? then Spare(v1, evict.value) else forall id :: !Spare(v1, id)
  }

  /** The cached entry dropped for the new one, if the search finds any. */
  ghost predicate SelectChoice(v: Verifier, rule: RuleKey, evict: Option<RuleKey>) {
    rule !in v.cache && |v.cache| >= MAX_ENTRIES ==>
      if evict.Some? then SpareEntry(v, evict.value) else forall k :: !SpareEntry(v, k)
  }

  // ---------- one pass ----------

  /** The entry as a leader leaves it before its load. */
  function Begun(e: Issuer, call: CallID, kid: string, now: Time): Issuer {
    e.(lastForced := if KnownKey(e, kid).None? && e.keys.Some? then Some(now) else e.lastForced,
       lastAttempt := Some(now), refreshing := Some(call))
  }

  function Judge(v: Verifier, call: CallID, n: nat, kid: string): (Verifier, Verdict)
    requires n < |v.issuers|
  {
    var e := v.issuers[n];
    var known := KnownKey(e, kid);
    if known.Some? && BeforeTime(v.now, e.refreshAfter) then (v, Return(Found(known.value)))
    else if e.refreshing.Some? then (v, Join(n, e.refreshing.value))
    else if e.lastError.Some? && Cooling(v.now, e.lastAttempt) then
      (v, Return(OrElse(known, BeforeTime(v.now, e.validUntil), e.lastError.value)))
    else if known.None? && BeforeTime(v.now, e.validUntil) && Cooling(v.now, e.lastForced) then
      (v, Return(Failed(if e.lastError.Some? then e.lastError.value else InvalidAssertion)))
    else if v.refreshes >= MAX_REFRESHES then
      (v, Return(OrElse(known, BeforeTime(v.now, e.validUntil), Unavailable)))
    else
      (v.(refreshes := v.refreshes + 1, issuers := v.issuers[n := Begun(e, call, kid, v.now)],
          loads := v.loads[call := Refresh(false, false)]),
       Lead(n, e.lastAttempt, e.lastForced))
  }

  /** The critical section at the top of the loop. */
  function Pass(v: Verifier, call: CallID, rule: RuleKey, kid: string, evict: Option<string>, evictEntry: Option<RuleKey>)
    : (Verifier, Verdict)
    requires forall k :: k in v.cache ==> v.cache[k] < |v.issuers|
  {
    if v.closed then (v, Return(Failed(Unavailable)))
    else if rule.id in v.current && v.current[rule.id] > rule.revision then (v, Return(Failed(StaleRule)))
    else
      var (v1, ready) := Prepare(v, rule, evict, evictEntry);
      if ready then Judge(v1, call, v1.cache[rule], kid) else (v1, Return(Failed(Unavailable)))
  }

  predicate Proceeds(v: Verifier, rule: RuleKey) { !v.closed && !(rule.id in v.current && v.current[rule.id] > rule.revision) }

  /** What the searches of a pass, as far as it goes, may find. */
  ghost predicate PassChoice(v: Verifier, rule: RuleKey, evict: Option<string>, evictEntry: Option<RuleKey>) {
    Proceeds(v, rule) ==>
      RegisterChoice(v, rule, evict) && (Register(v, rule, evict).1 ==> SelectChoice(Register(v, rule, evict).0, rule, evictEntry))
  }

  // ---------- the end of a load ----------

  /** The load's keys go in only while its entry is still the one cached for the registered revision. */
  predicate Publishes(v: Verifier, n: nat, outcome: Outcome)
    requires n < |v.issuers|
  {
    var rule := v.issuers[n].rule;
    outcome.Loaded? && !v.closed && Registered(v, rule) && rule in v.cache && v.cache[rule] == n
  }

  function Published(e: Issuer, keys: map<string, PublicKey>, now: Time, ttl: int): Issuer {
    e.(keys := Some(keys), validUntil := Some(now + ttl), refreshAfter := Some(now + ttl * 9 / 10))
  }

  /** `ended` says whether the leader's own context has ended. */
  predicate Abandons(outcome: Outcome, ended: bool) { outcome.LoadError? && ended }

  function Recorded(outcome: Outcome): Option<Failure> {
    match outcome
    case Loaded(_) => None
    case LoadError(failure, interrupted) => Some(if interrupted then Unavailable else failure)
  }

  function SettledEntry(e: Issuer, publish: bool, outcome: Outcome, ended: bool, previousAttempt: Option<Time>,
                        previousForced: Option<Time>, now: Time, ttl: int): Issuer
    requires publish ==> outcome.Loaded?
  {
    var e1 := if publish then Published(e, outcome.keys, now, ttl) else e;
    var e2 := if Abandons(outcome, ended) then e1.(lastAttempt := previousAttempt, lastForced := previousForced)
              else e1.(lastError := Recorded(outcome));
    e2.(refreshing := None)
  }

  function Settled(v: Verifier, n: nat, outcome: Outcome, ended: bool, previousAttempt: Option<Time>, previousForced: Option<Time>): Issuer
    requires n < |v.issuers|
  {
    SettledEntry(v.issuers[n], Publishes(v, n, outcome), outcome, ended, previousAttempt, previousForced, v.now, v.ttl)
  }

  function LeaderResult(e: Issuer, kid: string, now: Time, outcome: Outcome, ended: bool): Result {
    if Abandons(outcome, ended) then Failed(CallerEnded)
    else OrElse(KnownKey(e, kid), BeforeTime(now, e.validUntil),
                if outcome.LoadError? then outcome.failure else InvalidAssertion)
  }

  function Finish(v: Verifier, call: CallID, n: nat, kid: string, previousAttempt: Option<Time>, previousForced: Option<Time>,
                  outcome: Outcome, ended: bool): (Verifier, Result)
    requires n < |v.issuers| && v.refreshes > 0
  {
    var e := Settled(v, n, outcome, ended, previousAttempt, previousForced);
    (v.(refreshes := v.refreshes - 1, issuers := v.issuers[n := e],
        loads := v.loads[call := Refresh(true, Abandons(outcome, ended))]),
     LeaderResult(e, kid, v.now, outcome, ended))
  }

  /** What a joined caller sees once the load it joined is done. */
  function JoinedResult(v: Verifier, n: nat, kid: string): Result
    requires n < |v.issuers|
  {
    var e := v.issuers[n];
    OrElse(KnownKey(e, kid), BeforeTime(v.now, e.validUntil), if e.lastError.Some? then e.lastError.value else InvalidAssertion)
  }

  // ---------- calls ----------

  datatype Phase =
    | Top
    | Joined(issuer: nat, leader: CallID)
    | Leading(issuer: nat, previousAttempt: Option<Time>, previousForced: Option<Time>)
    | Returned(result: Result)

  datatype Call = Call(rule: RuleKey, kid: string, phase: Phase)

  datatype System = System(v: Verifier, calls: map<CallID, Call>)

  datatype Step =
    | Start(call: CallID, rule: RuleKey, kid: string)
    | Try(call: CallID, evict: Option<string>, evictEntry: Option<RuleKey>)
    | Wake(call: CallID)
    | Leave(call: CallID, shutdown: bool)
    | End(call: CallID, outcome: Outcome, ended: bool)
    | Close
    | Elapse(time: nat)

  ghost predicate At(s: System, call: CallID) { call in s.calls }

  /** Which steps can happen; the verifier's own context may be over before Close. */
  ghost predicate Can(s: System, step: Step) {
    match step
    case Start(call, rule, _) => call !in s.calls && call !in s.v.loads && rule.revision > 0
    case Try(call, evict, evictEntry) =>
      At(s, call) && s.calls[call].phase.Top? && PassChoice(s.v, s.calls[call].rule, evict, evictEntry)
    case Wake(call) =>
      At(s, call) && s.calls[call].phase.Joined? && s.calls[call].phase.leader in s.v.loads && s.v.loads[s.calls[call].phase.leader].done
    case Leave(call, _) => At(s, call) && s.calls[call].phase.Joined?
    case End(call, _, _) => At(s, call) && s.calls[call].phase.Leading?
    case _ => true
  }

  function Decided(verdict: Verdict): Phase {
    match verdict
    case Return(result) => Returned(result)
    case Join(issuer, leader) => Joined(issuer, leader)
    case Lead(issuer, previousAttempt, previousForced) => Leading(issuer, previousAttempt, previousForced)
  }

  function SetPhase(s: System, call: CallID, phase: Phase): System
    requires call in s.calls
  {
    s.(calls := s.calls[call := s.calls[call].(phase := phase)])
  }

  /** The numbers in use are those of entries, and a load in flight is counted. */
  ghost predicate Sound(s: System) {
    && (forall k :: k in s.v.cache ==> s.v.cache[k] < |s.v.issuers|)
    && (forall c :: c in s.calls && s.calls[c].phase.Joined? ==> s.calls[c].phase.issuer < |s.v.issuers|)
    && (forall c :: c in s.calls && s.calls[c].phase.Leading? ==> s.calls[c].phase.issuer < |s.v.issuers| && s.v.refreshes > 0)
  }

  ghost function TryStep(s: System, call: CallID, evict: Option<string>, evictEntry: Option<RuleKey>): System
    requires Sound(s) && call in s.calls
  {
    var c := s.calls[call];
    var (v, verdict) := Pass(s.v, call, c.rule, c.kid, evict, evictEntry);
    SetPhase(s.(v := v), call, Decided(verdict))
  }

  ghost function WakeStep(s: System, call: CallID): System
    requires Sound(s) && Can(s, Wake(call))
  {
    var c := s.calls[call];
    SetPhase(s, call, if s.v.loads[c.phase.leader].abandoned then Top else Returned(JoinedResult(s.v, c.phase.issuer, c.kid)))
  }

  ghost function EndStep(s: System, call: CallID, outcome: Outcome, ended: bool): System
    requires Sound(s) && Can(s, End(call, outcome, ended))
  {
    var c := s.calls[call];
    var (v, result) := Finish(s.v, call, c.phase.issuer, c.kid, c.phase.previousAttempt, c.phase.previousForced, outcome, ended);
    SetPhase(s.(v := v), call, Returned(result))
  }

  ghost function Next(s: System, step: Step): System
    requires Sound(s) && Can(s, step)
  {
    match step
    case Start(call, rule, kid) => s.(calls := s.calls[call := Call(rule, kid, Top)])
    case Try(call, evict, evictEntry) => TryStep(s, call, evict, evictEntry)
    case Wake(call) => WakeStep(s, call)
    case Leave(call, shutdown) => SetPhase(s, call, Returned(Failed(if shutdown then Unavailable else CallerEnded)))
    case End(call, outcome, ended) => EndStep(s, call, outcome, ended)
    case Close => s.(v := s.v.(closed := true))
    case Elapse(time) => s.(v := s.v.(now := s.v.now + time))
  }

  function NewVerifier(now: Time, ttl: int): Verifier {
    Verifier(now, ttl, false, map[], map[], 0, [], map[])
  }
}
