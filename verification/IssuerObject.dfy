/**
 The verifier's cache as its critical sections update it in place. Pass is the section at
 the top of the loop of `key`, Finish the one after a load, AfterJoin the one a joined
 caller runs; each is proved to be the step of IssuerCache of the same name.
 */
module IssuerObject {
  import opened Options
  import opened IssuerCache
  import opened IssuerLaws

  /** A load in flight that concurrent callers join. */
  class Load {
    const leader: CallID
    var done: bool
    var abandoned: bool

    constructor (leader: CallID)
      ensures this.leader == leader && View() == Refresh(false, false)
    {
      this.leader, this.done, this.abandoned := leader, false, false;
    }

    ghost function View(): Refresh
      reads this
    {
      Refresh(done, abandoned)
    }
  }

  /** A cache entry, numbered in the order of creation. */
  class CachedIssuer {
    const number: nat
    const rule: RuleKey
    var keys: Option<map<string, PublicKey>>
    var validUntil: Option<Time>
    var refreshAfter: Option<Time>
    var lastForced: Option<Time>
    var lastAttempt: Option<Time>
    var refreshing: Load?
    var lastError: Option<Failure>

    constructor (number: nat, rule: RuleKey)
      ensures this.number == number && this.rule == rule && refreshing == null && View() == Blank(rule)
    {
      this.number, this.rule, this.keys, this.validUntil, this.refreshAfter := number, rule, None, None, None;
      this.lastForced, this.lastAttempt, this.refreshing, this.lastError := None, None, null, None;
    }

    ghost function View(): Issuer
      reads this
    {
      Issuer(rule, keys, validUntil, refreshAfter, lastForced, lastAttempt,
             if refreshing == null then None else Some(refreshing.leader), lastError)
    }

    /** The leader's changes before its load. */
    method Begin(call: CallID, kid: string, now: Time) returns (load: Load)
      modifies this
      ensures View() == Begun(old(View()), call, kid, now) && fresh(load) && refreshing == load
      ensures load.leader == call && load.View() == Refresh(false, false)
    {
      var known := Known(kid);
      if known.None? && keys.Some? {
        lastForced := Some(now);
      }
      lastAttempt := Some(now);
      load := new Load(call);
      refreshing := load;
    }

    /** The leader's changes after its load, and whether it publishes. */
    method Settle(publish: bool, outcome: Outcome, ended: bool, previousAttempt: Option<Time>, previousForced: Option<Time>,
                  now: Time, ttl: int)
      requires publish ==> outcome.Loaded?
      modifies this
      ensures View() == SettledEntry(old(View()), publish, outcome, ended, previousAttempt, previousForced, now, ttl)
      ensures refreshing == null
    {
      if publish {
        keys := Some(outcome.keys);
        validUntil := Some(now + ttl);
        refreshAfter := Some(now + ttl * 9 / 10);
      }
      if Abandons(outcome, ended) {
        lastAttempt, lastForced := previousAttempt, previousForced;
      } else if outcome.LoadError? {
        lastError := Some(if outcome.interrupted then Unavailable else outcome.failure);
      } else {
        lastError := None;
      }
      refreshing := null;
    }

    function Known(kid: string): (key: Option<PublicKey>)
      reads this
      ensures key == KnownKey(View(), kid)
    {
      if keys.Some? && kid in keys.value then Some(keys.value[kid]) else None
    }
  }

  /** The object is the entry of that number and value, and its load in flight is a known one. */
  ghost predicate Tied(e: CachedIssuer, number: nat, value: Issuer, begun: map<CallID, Load>)
    reads e
  {
    && e.number == number && e.View() == value
    && (e.refreshing != null ==> e.refreshing.leader in begun && begun[e.refreshing.leader] == e.refreshing)
  }

  /** The ghost values are those of the objects. */
  ghost predicate EntriesTied(all: seq<CachedIssuer>, issuers: seq<Issuer>, begun: map<CallID, Load>)
    reads all
  {
    |all| == |issuers| && forall i :: 0 <= i < |all| ==> Tied(all[i], i, issuers[i], begun)
  }

  ghost predicate LoadsTied(begun: map<CallID, Load>, loads: map<CallID, Refresh>)
    reads begun.Values
  {
    begun.Keys == loads.Keys && forall c :: c in begun ==> begun[c].leader == c && begun[c].View() == loads[c]
  }

  lemma TiedMore(e: CachedIssuer, number: nat, value: Issuer, begun: map<CallID, Load>, call: CallID, load: Load)
    requires Tied(e, number, value, begun) && call !in begun
    ensures Tied(e, number, value, begun[call := load])
  {
  }

  /** An entry is the only one of its number. */
  lemma OnlyEntry(all: seq<CachedIssuer>, issuers: seq<Issuer>, begun: map<CallID, Load>, n: nat)
    requires EntriesTied(all, issuers, begun) && n < |all|
    ensures forall i :: 0 <= i < |all| && i != n ==> all[i] != all[n]
    ensures Tied(all[n], n, issuers[n], begun) && all[n].number == n && all[n].View() == issuers[n]
  {
    forall i | 0 <= i < |all|
      ensures all[i].number == i
    {
      assert Tied(all[i], i, issuers[i], begun);
    }
  }

  lemma LoadsPut(begun: map<CallID, Load>, loads: map<CallID, Refresh>, load: Load)
    requires LoadsTied(begun, loads)
    ensures LoadsTied(begun[load.leader := load], loads[load.leader := load.View()])
    ensures begun.Keys == loads.Keys
  {
  }

  lemma LoadOf(e: CachedIssuer, number: nat, value: Issuer, begun: map<CallID, Load>)
    requires Tied(e, number, value, begun) && e.refreshing != null
    ensures e.refreshing.leader in begun && begun[e.refreshing.leader] == e.refreshing
  {
  }

  lemma TiedNow(e: CachedIssuer, begun: map<CallID, Load>)
    requires e.refreshing != null ==> e.refreshing.leader in begun && begun[e.refreshing.leader] == e.refreshing
    ensures Tied(e, e.number, e.View(), begun)
  {
  }

  /** The cached objects are the entries of those numbers. */
  ghost predicate Caches(cache: map<RuleKey, CachedIssuer>, numbers: map<RuleKey, nat>, all: seq<CachedIssuer>) {
    && cache.Keys == numbers.Keys
    && forall k :: k in cache ==> numbers[k] < |all| && all[numbers[k]] == cache[k]
  }

  lemma CachesSize(cache: map<RuleKey, CachedIssuer>, numbers: map<RuleKey, nat>, all: seq<CachedIssuer>)
    requires Caches(cache, numbers, all)
    ensures |cache| == |numbers| && cache.Keys == numbers.Keys
  {
    assert |cache.Keys| == |numbers.Keys|;
  }

  lemma CachesDrop(cache: map<RuleKey, CachedIssuer>, numbers: map<RuleKey, nat>, all: seq<CachedIssuer>, k: RuleKey)
    requires Caches(cache, numbers, all)
    ensures Caches(cache - {k}, numbers - {k}, all)
  {
    assert (cache - {k}).Keys == (numbers - {k}).Keys;
  }

  lemma CachesAdd(cache: map<RuleKey, CachedIssuer>, numbers: map<RuleKey, nat>, all: seq<CachedIssuer>, k: RuleKey, e: CachedIssuer)
    requires Caches(cache, numbers, all)
    ensures Caches(cache[k := e], numbers[k := |all|], all + [e])
  {
  }

  lemma CachesWithout(cache: map<RuleKey, CachedIssuer>, numbers: map<RuleKey, nat>, all: seq<CachedIssuer>, id: string)
    requires Caches(cache, numbers, all)
    ensures Caches(map k | k in cache && k.id != id :: cache[k], Without(numbers, id), all)
  {
  }

  class AssertionVerifier {
    const ttl: int
    var closed: bool
    var cache: map<RuleKey, CachedIssuer>
    var current: map<string, int>
    var refreshes: nat
    var created: nat
    ghost var numbers: map<RuleKey, nat>
    ghost var all: seq<CachedIssuer>
    ghost var issuers: seq<Issuer>
    ghost var begun: map<CallID, Load>
    ghost var loads: map<CallID, Refresh>

    ghost predicate Valid()
      reads this, all, begun.Values
    {
      |all| == created && EntriesTied(all, issuers, begun) && LoadsTied(begun, loads) && Caches(cache, numbers, all)
    }

    ghost function View(now: Time): Verifier
      reads this
    {
      Verifier(now, ttl, closed, numbers, current, refreshes, issuers, loads)
    }

    constructor (ttl: int)
      ensures Valid() && forall now :: View(now) == NewVerifier(now, ttl)
    {
      this.ttl, this.closed, this.cache, this.current, this.refreshes, this.created := ttl, false, map[], map[], 0, 0;
      this.numbers, this.all, this.issuers, this.begun, this.loads := map[], [], [], map[], map[];
    }

    method Close(ghost now: Time)
      modifies this`closed
      ensures View(now) == old(View(now)).(closed := true)
    {
      closed := true;
    }

    // ---------- registering the rule's revision ----------

    /** Every cached revision of the rule is evicted. */
    method DropRevisions(id: string)
      modifies this`cache
      ensures cache == map k | k in old(cache) && k.id != id :: old(cache)[k]
    {
      var rest := cache.Keys;
      while rest != {}
        invariant rest <= old(cache).Keys
        invariant cache == map k | k in old(cache) && (k in rest || k.id != id) :: old(cache)[k]
        decreases |rest|
      {
        var k :| k in rest;
        if k.id == id {
          cache := cache - {k};
        }
        rest := rest - {k};
      }
    }

    method EvictRevisions(id: string)
      requires Valid()
      modifies this`cache, this`numbers
      ensures Valid() && numbers == Without(old(numbers), id)
    {
      hide EntriesTied, LoadsTied, Caches, Without;
      CachesWithout(cache, numbers, all, id);
      DropRevisions(id);
      numbers := Without(numbers, id);
    }

    lemma IdleExactly(k: RuleKey, now: Time)
      requires Valid() && k in cache
      ensures k in numbers && (cache[k].refreshing == null <==> Idle(View(now), numbers[k]))
    {
      assert Tied(all[numbers[k]], numbers[k], issuers[numbers[k]], begun);
    }

    /** The first registered rule, in the order visited, none of whose loads is in flight in the cache. */
    method FindSpare(ghost now: Time) returns (evict: Option<string>)
      requires Valid()
      ensures if evict.Some? then Spare(View(now), evict.value) else forall id :: !Spare(View(now), id)
    {
      hide EntriesTied, LoadsTied, Idle;
      var rest := current.Keys;
      while rest != {}
        invariant rest <= current.Keys
        invariant forall id :: id in current && id !in rest ==> !Spare(View(now), id)
        decreases |rest|
      {
        var id :| id in rest;
        var k := RuleKey(id, current[id]);
        if k !in cache {
          return Some(id);
        }
        IdleExactly(k, now);
        if cache[k].refreshing == null {
          return Some(id);
        }
        rest := rest - {id};
      }
      return None;
    }

    method FindSpareEntry(ghost now: Time) returns (evict: Option<RuleKey>)
      requires Valid()
      ensures if evict.Some? then SpareEntry(View(now), evict.value) else forall k :: !SpareEntry(View(now), k)
    {
      hide EntriesTied, LoadsTied, Idle;
      var rest := cache.Keys;
      while rest != {}
        invariant rest <= cache.Keys
        invariant forall k :: k in cache && k !in rest ==> !SpareEntry(View(now), k)
        decreases |rest|
      {
        var k :| k in rest;
        IdleExactly(k, now);
        if cache[k].refreshing == null {
          return Some(k);
        }
        rest := rest - {k};
      }
      return None;
    }

    /** A full table of revisions forgets a rule with no load in flight, if it has one. */
    method ForgetRule(now: Time) returns (ghost evict: Option<string>)
      requires Valid()
      modifies this`current
      ensures Valid() && View(now) == old(View(now)).(current := current)
      ensures if evict.Some? then Spare(old(View(now)), evict.value) else forall id :: !Spare(old(View(now)), id)
      ensures current == if evict.Some? then old(current) - {evict.value} else old(current)
    {
      hide EntriesTied, LoadsTied, Caches, Spare;
      var spare := FindSpare(now);
      evict := spare;
      if spare.Some? {
        current := current - {spare.value};
      }
    }

    method RegisterRule(rule: RuleKey, now: Time) returns (ok: bool, ghost evict: Option<string>)
      requires Valid() && rule.revision > 0
      modifies this`cache, this`numbers, this`current
      ensures Valid() && RegisterChoice(old(View(now)), rule, evict) && (View(now), ok) == Register(old(View(now)), rule, evict)
    {
      hide EntriesTied, LoadsTied, Caches, Spare, Without;
      evict := None;
      if rule.id in current && current[rule.id] == rule.revision {
        return true, None;
      }
      EvictRevisions(rule.id);
      if rule.id !in current && |current| >= MAX_ENTRIES {
        evict := ForgetRule(now);
        if |current| >= MAX_ENTRIES {
          return false, evict;
        }
      }
      current := current[rule.id := rule.revision];
      return true, evict;
    }

    /** A full cache drops an entry with no load in flight, if it has one. */
    method MakeRoom(now: Time) returns (ghost evict: Option<RuleKey>)
      requires Valid()
      modifies this`cache, this`numbers
      ensures Valid() && |cache| == |numbers| && |old(cache)| == |old(numbers)|
      ensures |old(numbers)| >= MAX_ENTRIES ==>
        if evict.Some? then SpareEntry(old(View(now)), evict.value) else forall k :: !SpareEntry(old(View(now)), k)
      ensures numbers == if |old(numbers)| >= MAX_ENTRIES && evict.Some? then old(numbers) - {evict.value} else old(numbers)
    {
      CachesSize(cache, numbers, all);
      hide EntriesTied, LoadsTied, SpareEntry, Caches;
      evict := None;
      if |cache| >= MAX_ENTRIES {
        var spare := FindSpareEntry(now);
        evict := spare;
        if spare.Some? {
          DropEntry(spare.value);
        }
      }
      CachesSize(cache, numbers, all);
    }

    method DropEntry(k: RuleKey)
      requires Valid()
      modifies this`cache, this`numbers
      ensures Valid() && numbers == old(numbers) - {k}
    {
      CachesDrop(cache, numbers, all, k);
      hide EntriesTied, LoadsTied, Caches;
      cache, numbers := cache - {k}, numbers - {k};
    }

    method SelectEntry(rule: RuleKey, now: Time) returns (entry: CachedIssuer?, ghost evict: Option<RuleKey>)
      requires Valid()
      modifies this`cache, this`numbers, this`created, this`all, this`issuers
      ensures Valid() && SelectChoice(old(View(now)), rule, evict)
      ensures (View(now), entry != null) == Select(old(View(now)), rule, evict)
      ensures entry != null ==> rule in cache && cache[rule] == entry
      ensures old(all) <= all && forall i :: |old(all)| <= i < |all| ==> fresh(all[i])
    {
      hide EntriesTied, LoadsTied, SpareEntry, Caches, Blank;
      CachesSize(cache, numbers, all);
      evict := None;
      if rule in cache {
        return cache[rule], None;
      }
      evict := MakeRoom(now);
      ghost var v1 := View(now);
      if |cache| >= MAX_ENTRIES {
        return null, evict;
      }
      entry := AddEntry(rule, now);
      assert View(now) == Inserted(v1, rule);
    }

    method AddEntry(rule: RuleKey, ghost now: Time) returns (entry: CachedIssuer)
      requires Valid()
      modifies this`cache, this`numbers, this`created, this`all, this`issuers
      ensures Valid() && View(now) == Inserted(old(View(now)), rule)
      ensures rule in cache && cache[rule] == entry && fresh(entry) && all == old(all) + [entry]
    {
      entry := new CachedIssuer(created, rule);
      CachesAdd(cache, numbers, all, rule, entry);
      assert Tied(entry, created, Blank(rule), begun);
      hide Tied, LoadsTied, Caches;
      cache, numbers := cache[rule := entry], numbers[rule := |all|];
      created, all, issuers := created + 1, all + [entry], issuers + [Blank(rule)];
    }

    // ---------- one pass ----------

    /** The object is one of the entries. */
    ghost predicate Owns(entry: CachedIssuer)
      reads this`all
    {
      entry.number < |all| && all[entry.number] == entry
    }

    lemma OwnsCached(k: RuleKey)
      requires Valid() && k in cache
      ensures Owns(cache[k]) && k in numbers && cache[k].number == numbers[k]
    {
      assert Tied(all[numbers[k]], numbers[k], issuers[numbers[k]], begun);
    }

    method BeginLoad(entry: CachedIssuer, call: CallID, kid: string, now: Time)
      requires Valid() && Owns(entry) && entry.refreshing == null && call !in loads
      modifies this`refreshes, this`issuers, this`begun, this`loads, entry
      ensures Valid() && View(now) == old(View(now)).(
        refreshes := old(refreshes) + 1,
        issuers := old(issuers)[entry.number := Begun(old(issuers)[entry.number], call, kid, now)],
        loads := old(loads)[call := Refresh(false, false)])
      ensures forall c :: c in old(begun) ==> c in begun && begun[c] == old(begun)[c]
      ensures call in begun && fresh(begun[call])
    {
      hide Tied, LoadsTied, Caches, Begun;
      ghost var n, before := entry.number, begun;
      OnlyEntry(all, issuers, begun, n);
      var load := entry.Begin(call, kid, now);
      refreshes := refreshes + 1;
      LoadsPut(begun, loads, load);
      begun, loads := begun[call := load], loads[call := Refresh(false, false)];
      issuers := issuers[n := Begun(issuers[n], call, kid, now)];
      TiedNow(entry, begun);
      forall i | 0 <= i < |all| && i != n
        ensures Tied(all[i], i, issuers[i], begun)
      {
        assert Tied(all[i], i, issuers[i], before);
        TiedMore(all[i], i, issuers[i], before, call, load);
      }
    }

    /** The decisions of a pass once its entry is selected. */
    method JudgeEntry(call: CallID, entry: CachedIssuer, kid: string, now: Time) returns (verdict: Verdict)
      requires Valid() && Owns(entry) && call !in loads
      modifies this`refreshes, this`issuers, this`begun, this`loads, entry
      ensures Valid() && (View(now), verdict) == Judge(old(View(now)), call, entry.number, kid)
    {
      assert Tied(entry, entry.number, issuers[entry.number], begun);
      hide LoadsTied, EntriesTied, Caches, Begun;
      var known := entry.Known(kid);
      if known.Some? && BeforeTime(now, entry.refreshAfter) {
        return Return(Found(known.value));
      }
      if entry.refreshing != null {
        return Join(entry.number, entry.refreshing.leader);
      }
      var valid := BeforeTime(now, entry.validUntil);
      if entry.lastError.Some? && Cooling(now, entry.lastAttempt) {
        return Return(OrElse(known, valid, entry.lastError.value));
      }
      if known.None? && valid && Cooling(now, entry.lastForced) {
        return Return(Failed(if entry.lastError.Some? then entry.lastError.value else InvalidAssertion));
      }
      if refreshes >= MAX_REFRESHES {
        return Return(OrElse(known, valid, Unavailable));
      }
      verdict := Lead(entry.number, entry.lastAttempt, entry.lastForced);
      BeginLoad(entry, call, kid, now);
    }

    /** The critical section at the top of the loop of `key`. */
    method Pass(call: CallID, rule: RuleKey, kid: string, now: Time)
      returns (verdict: Verdict, ghost evict: Option<string>, ghost evictEntry: Option<RuleKey>)
      requires Valid() && rule.revision > 0 && call !in loads
      requires forall k :: k in numbers ==> numbers[k] < |issuers|
      modifies this, all
      ensures Valid() && PassChoice(old(View(now)), rule, evict, evictEntry)
      ensures (View(now), verdict) == IssuerCache.Pass(old(View(now)), call, rule, kid, evict, evictEntry)
    {
      hide LoadsTied, EntriesTied, Judge, Register, Select, RegisterChoice, SelectChoice;
      evict, evictEntry := None, None;
      if closed {
        return Return(Failed(Unavailable)), None, None;
      }
      if rule.id in current && current[rule.id] > rule.revision {
        verdict := Return(Failed(StaleRule));
        return;
      }
      var ok;
      ok, evict := RegisterRule(rule, now);
      if !ok {
        verdict := Return(Failed(Unavailable));
        return;
      }
      var entry;
      entry, evictEntry := SelectEntry(rule, now);
      if entry == null {
        verdict := Return(Failed(Unavailable));
        return;
      }
      OwnsCached(rule);
      verdict := JudgeEntry(call, entry, kid, now);
    }

    // ---------- the end of a load ----------

    lemma CachedExactly(entry: CachedIssuer)
      requires Valid() && Owns(entry)
      ensures cache.Keys == numbers.Keys && entry.rule == issuers[entry.number].rule
      ensures forall k :: k in cache ==> (cache[k] == entry <==> numbers[k] == entry.number)
    {
      OnlyEntry(all, issuers, begun, entry.number);
    }

    /** Whether the load's entry is still the one cached for the registered revision. */
    method MayPublish(entry: CachedIssuer, outcome: Outcome, ghost now: Time) returns (publish: bool)
      requires Valid() && Owns(entry)
      ensures entry.number < |issuers| && publish == Publishes(View(now), entry.number, outcome)
      ensures publish ==> outcome.Loaded?
    {
      CachedExactly(entry);
      hide Tied, LoadsTied, Caches;
      var rule := entry.rule;
      publish := outcome.Loaded? && !closed && rule.id in current && current[rule.id] == rule.revision &&
                 rule in cache && cache[rule] == entry;
    }

    method EndLoad(load: Load, abandoned: bool)
      requires LoadsTied(begun, loads) && load.leader in begun && begun[load.leader] == load
      modifies load, this`loads
      ensures LoadsTied(begun, loads) && loads == old(loads)[load.leader := Refresh(true, abandoned)]
    {
      load.abandoned := abandoned;
      load.done := true;
      loads := loads[load.leader := Refresh(true, abandoned)];
    }

    /** The critical section after the leader's load; `ended` says whether its own context has ended. */
    method Finish(call: CallID, entry: CachedIssuer, kid: string, previousAttempt: Option<Time>, previousForced: Option<Time>,
                  outcome: Outcome, ended: bool, now: Time) returns (result: Result)
      requires Valid() && Owns(entry) && entry.refreshing != null && entry.refreshing.leader == call && refreshes > 0
      modifies this`refreshes, this`issuers, this`loads, entry, begun.Values
      ensures Valid()
      ensures (View(now), result) == IssuerCache.Finish(
        old(View(now)), call, entry.number, kid, previousAttempt, previousForced, outcome, ended)
    {
      hide Tied, LoadsTied, Caches, SettledEntry, Publishes, KnownKey;
      ghost var n := entry.number;
      OnlyEntry(all, issuers, begun, n);
      LoadOf(entry, n, issuers[n], begun);
      var publish := MayPublish(entry, outcome, now);
      var load := entry.refreshing;
      entry.Settle(publish, outcome, ended, previousAttempt, previousForced, now, ttl);
      issuers := issuers[n := entry.View()];
      refreshes := refreshes - 1;
      EndLoad(load, Abandons(outcome, ended));
      TiedNow(entry, begun);
      var key, valid := entry.Known(kid), BeforeTime(now, entry.validUntil);
      if Abandons(outcome, ended) {
        return Failed(CallerEnded);
      }
      return OrElse(key, valid, if outcome.LoadError? then outcome.failure else InvalidAssertion);
    }

    /** What a joined caller does once the load it joined is done: a result, or another pass. */
    method AfterJoin(entry: CachedIssuer, load: Load, kid: string, now: Time) returns (result: Option<Result>)
      requires Valid() && Owns(entry) && load.leader in begun && begun[load.leader] == load
      ensures load.leader in loads && entry.number < |issuers|
      ensures result == if loads[load.leader].abandoned then None else Some(JoinedResult(View(now), entry.number, kid))
    {
      OnlyEntry(all, issuers, begun, entry.number);
      if load.abandoned {
        return None;
      }
      var failure := if entry.lastError.Some? then entry.lastError.value else InvalidAssertion;
      return Some(OrElse(entry.Known(kid), BeforeTime(now, entry.validUntil), failure));
    }
  }
}
