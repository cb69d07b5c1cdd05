/**
 Apply as it runs: validate the document, validate it against the rows, order its writes and
 execute them one by one. It is proved to accept exactly the documents it should, and to do
 what the plan of the import says.
 */
module PolicyObject {
  import opened Options
  import opened TextOrder
  import opened Principals
  import opened Policies
  import opened PolicyLaws
  import opened PolicyRevisions
  import opened PolicyChecks

  // ---------- the order of the writes ----------

  /** What is not an enabled grant comes first; then the order of the IDs. */
  predicate Less(a: Write, b: Write) {
    if Enables(a) != Enables(b) then !Enables(a) else TextLess(TargetOf(a).id, TargetOf(b).id)
  }

  ghost predicate Sorted(writes: seq<Write>) { forall i, j :: 0 <= i < j < |writes| ==> !Less(writes[j], writes[i]) }

  ghost predicate EnabledLast(writes: seq<Write>) {
    forall i, j :: 0 <= i < j < |writes| && Enables(writes[i]) ==> Enables(writes[j])
  }

  lemma LessOrders(a: Write, b: Write, c: Write)
    ensures Less(a, b) ==> !Less(b, a)
    ensures !Less(a, b) && !Less(b, c) ==> !Less(a, c)
  {
    hide TextLess, TargetOf, Enables;
    var x, y, z := TargetOf(a).id, TargetOf(b).id, TargetOf(c).id;
    TextLessTotal(x, y);
    if TextLess(x, z) {
      TextLessSplits(x, y, z);
    }
  }

  method Insert(sorted: seq<Write>, w: Write) returns (more: seq<Write>)
    requires Sorted(sorted)
    ensures Sorted(more) && multiset(more) == multiset(sorted) + multiset{w}
  {
    hide Less;
    var k := |sorted|;
    while k > 0 && Less(w, sorted[k - 1])
      invariant 0 <= k <= |sorted|
      invariant forall j :: k <= j < |sorted| ==> Less(w, sorted[j])
    {
      k := k - 1;
    }
    more := sorted[..k] + [w] + sorted[k..];
    Placed(sorted, k, w);
    assert sorted == sorted[..k] + sorted[k..];
  }

  lemma Placed(sorted: seq<Write>, k: nat, w: Write)
    requires Sorted(sorted) && k <= |sorted| && (k > 0 ==> !Less(w, sorted[k - 1]))
    requires forall j :: k <= j < |sorted| ==> Less(w, sorted[j])
    ensures Sorted(sorted[..k] + [w] + sorted[k..])
  {
    hide Less;
    forall j | 0 <= j < |sorted|
      ensures if j < k then !Less(w, sorted[j]) else !Less(sorted[j], w)
    {
      if j < k {
        LessOrders(w, sorted[k - 1], sorted[j]);
      } else {
        LessOrders(w, sorted[j], w);
      }
    }
  }

  method Sort(writes: seq<Write>) returns (sorted: seq<Write>)
    ensures Sorted(sorted) && multiset(sorted) == multiset(writes)
  {
    hide Less;
    sorted := [];
    for i := 0 to |writes|
      invariant Sorted(sorted) && multiset(sorted) == multiset(writes[..i])
    {
      sorted := Insert(sorted, writes[i]);
      assert writes[..i + 1] == writes[..i] + [writes[i]];
    }
    assert writes[..|writes|] == writes;
  }

  /** Nothing in order comes after an enabled grant but enabled grants. */
  lemma SortedEnables(writes: seq<Write>)
    requires Sorted(writes)
    ensures EnabledLast(writes)
  {
  }

  // ---------- the plan ----------

  /** The writes of each kind, in the document's order. */
  function PutRules(d: Document): seq<Write> { seq(|d.rules|, n requires 0 <= n < |d.rules| => PutRule(d.rules[n])) }

  function RemoveRules(d: Document): seq<Write> { seq(|d.removeRules|, n requires 0 <= n < |d.removeRules| => RemoveRule(d.removeRules[n])) }

  function PutIdentities(d: Document): seq<Write> { seq(|d.identities|, n requires 0 <= n < |d.identities| => PutIdentity(d.identities[n])) }

  function RemoveIdentities(d: Document): seq<Write> {
    seq(|d.removeIdentities|, n requires 0 <= n < |d.removeIdentities| => RemoveIdentity(d.removeIdentities[n]))
  }

  function RevokeGrants(d: Document): seq<Write> { seq(|d.revokeGrants|, n requires 0 <= n < |d.revokeGrants| => RevokeGrant(d.revokeGrants[n])) }

  function PutGrants(d: Document): seq<Write> { seq(|d.grants|, n requires 0 <= n < |d.grants| => PutGrant(d.grants[n])) }

  function RevokeTokens(d: Document): seq<Write> {
    seq(|d.revokeTokens|, n requires 0 <= n < |d.revokeTokens| => RevokeToken(d.revokeTokens[n].0, d.revokeTokens[n].1))
  }

  /** The kinds of writes, in the order Apply makes them. */
  function Group(w: Write): nat {
    match w
    case PutRule(_) => 0
    case RemoveRule(_) => 1
    case PutIdentity(_) => 2
    case RemoveIdentity(_) => 3
    case RevokeGrant(_) => 4
    case PutGrant(_) => 5
    case RevokeToken(_, _) => 6
  }

  /** A list of writes that holds exactly the document's writes of one kind, each once. */
  ghost predicate Lists(d: Document, writes: seq<Write>, group: nat) {
    NoDuplicates(writes) && forall w :: w in writes <==> Asks(d, w) && Group(w) == group
  }

  lemma PutRulesList(d: Document)
    requires NoDuplicates(RuleIDs(d))
    ensures Lists(d, PutRules(d), 0)
  {
    var ids, writes := RuleIDs(d), PutRules(d);
    assert forall n :: 0 <= n < |writes| ==> ids[n] == TargetOf(writes[n]).id;
    forall w | Asks(d, w) && Group(w) == 0
      ensures w in writes
    {
      var n :| 0 <= n < |d.rules| && d.rules[n] == w.rule;
      assert writes[n] == w;
    }
  }

  lemma RemoveRulesList(d: Document)
    requires NoDuplicates(RuleIDs(d))
    ensures Lists(d, RemoveRules(d), 1)
  {
    var ids, writes := RuleIDs(d), RemoveRules(d);
    assert forall n :: 0 <= n < |writes| ==> ids[|d.rules| + n] == TargetOf(writes[n]).id;
    forall w | Asks(d, w) && Group(w) == 1
      ensures w in writes
    {
      var n :| 0 <= n < |d.removeRules| && d.removeRules[n] == w.id;
      assert writes[n] == w;
    }
  }

  lemma PutIdentitiesList(d: Document)
    requires NoDuplicates(IdentityIDs(d))
    ensures Lists(d, PutIdentities(d), 2)
  {
    var ids, writes := IdentityIDs(d), PutIdentities(d);
    assert forall n :: 0 <= n < |writes| ==> ids[n] == TargetOf(writes[n]).id;
    forall w | Asks(d, w) && Group(w) == 2
      ensures w in writes
    {
      var n :| 0 <= n < |d.identities| && d.identities[n] == w.identity;
      assert writes[n] == w;
    }
  }

  lemma RemoveIdentitiesList(d: Document)
    requires NoDuplicates(IdentityIDs(d))
    ensures Lists(d, RemoveIdentities(d), 3)
  {
    var ids, writes := IdentityIDs(d), RemoveIdentities(d);
    assert forall n :: 0 <= n < |writes| ==> ids[|d.identities| + n] == TargetOf(writes[n]).id;
    forall w | Asks(d, w) && Group(w) == 3
      ensures w in writes
    {
      var n :| 0 <= n < |d.removeIdentities| && d.removeIdentities[n] == w.id;
      assert writes[n] == w;
    }
  }

  lemma RevokeGrantsList(d: Document)
    requires NoDuplicates(GrantIDs(d))
    ensures Lists(d, RevokeGrants(d), 4)
  {
    var ids, writes := GrantIDs(d), RevokeGrants(d);
    assert forall n :: 0 <= n < |writes| ==> ids[|d.grants| + n] == TargetOf(writes[n]).id;
    forall w | Asks(d, w) && Group(w) == 4
      ensures w in writes
    {
      var n :| 0 <= n < |d.revokeGrants| && d.revokeGrants[n] == w.id;
      assert writes[n] == w;
    }
  }

  lemma PutGrantsList(d: Document)
    requires NoDuplicates(GrantIDs(d))
    ensures Lists(d, PutGrants(d), 5)
  {
    var ids, writes := GrantIDs(d), PutGrants(d);
    assert forall n :: 0 <= n < |writes| ==> ids[n] == TargetOf(writes[n]).id;
    forall w | Asks(d, w) && Group(w) == 5
      ensures w in writes
    {
      var n :| 0 <= n < |d.grants| && d.grants[n] == w.grant;
      assert writes[n] == w;
    }
  }

  lemma RevokeTokensList(d: Document)
    requires NoDuplicates(TokenIDs(d))
    ensures Lists(d, RevokeTokens(d), 6)
  {
    var ids, writes := TokenIDs(d), RevokeTokens(d);
    assert forall n :: 0 <= n < |writes| ==> ids[n] == TargetOf(writes[n]).id;
    forall w | Asks(d, w) && Group(w) == 6
      ensures w in writes
    {
      var n :| 0 <= n < |d.revokeTokens| && d.revokeTokens[n] == (w.id, w.workspaceID);
      assert writes[n] == w;
    }
  }

  lemma {:induction false} CountOnce(s: seq<Write>, w: Write)
    ensures NoDuplicates(s) ==> multiset(s)[w] <= 1
    ensures forall i, j :: 0 <= i < j < |s| && s[i] == w == s[j] ==> multiset(s)[w] >= 2
  {
    if s != [] {
      var front, last := s[..|s| - 1], s[|s| - 1];
      CountOnce(front, w);
      assert s == front + [last];
      assert w in front <==> multiset(front)[w] > 0;
    }
  }

  /** Sorting keeps what a list holds. */
  lemma SortedLists(d: Document, writes: seq<Write>, sorted: seq<Write>, group: nat)
    requires Lists(d, writes, group) && multiset(sorted) == multiset(writes)
    ensures Lists(d, sorted, group)
  {
    forall i, j | 0 <= i < j < |sorted|
      ensures sorted[i] != sorted[j]
    {
      CountOnce(writes, sorted[i]);
      CountOnce(sorted, sorted[i]);
    }
    forall w
      ensures w in sorted <==> w in writes
    {
      assert w in sorted <==> w in multiset(sorted);
    }
  }

  /** The plan so far: the writes of the groups below, each once, nothing enabled before the last grant is retired. */
  ghost predicate PlansBelow(d: Document, writes: seq<Write>, group: nat) {
    && NoDuplicates(writes)
    && (forall w :: w in writes <==> Asks(d, w) && Group(w) < group)
    && (forall i, j :: 0 <= i < j < |writes| && Enables(writes[i]) && (writes[j].PutGrant? || writes[j].RevokeGrant?) ==> Enables(writes[j]))
  }

  /** Group after group, and each group but the last in the order of the writes. */
  ghost predicate InOrder(writes: seq<Write>) {
    forall i, j :: 0 <= i < j < |writes| ==>
      Group(writes[i]) < Group(writes[j]) || (Group(writes[i]) == Group(writes[j]) && (Group(writes[i]) < 6 ==> !Less(writes[j], writes[i])))
  }

  lemma ExtendsOrder(d: Document, writes: seq<Write>, group: nat, more: seq<Write>)
    requires PlansBelow(d, writes, group) && Lists(d, more, group) && InOrder(writes) && (group < 6 ==> Sorted(more))
    ensures InOrder(writes + more)
  {
    hide Less;
    var all := writes + more;
    forall i, j | 0 <= i < j < |all|
      ensures Group(all[i]) < Group(all[j]) || (Group(all[i]) == Group(all[j]) && (Group(all[i]) < 6 ==> !Less(all[j], all[i])))
    {
      if i < |writes| {
        assert all[i] in writes;
      } else {
        assert all[i] in more;
      }
      if j >= |writes| {
        assert all[j] in more;
      }
    }
  }

  lemma Extends(d: Document, writes: seq<Write>, group: nat, more: seq<Write>)
    requires PlansBelow(d, writes, group) && Lists(d, more, group) && EnabledLast(more)
    ensures PlansBelow(d, writes + more, group + 1)
  {
    var all := writes + more;
    forall i, j | 0 <= i < j < |all|
      ensures all[i] != all[j]
      ensures Enables(all[i]) && (all[j].PutGrant? || all[j].RevokeGrant?) ==> Enables(all[j])
    {
      if i < |writes| <= j {
        assert all[i] in writes && all[j] in more;
      }
    }
  }

  method NextGroup(d: Document, plan: seq<Write>, group: nat, writes: seq<Write>) returns (more: seq<Write>)
    requires PlansBelow(d, plan, group) && Lists(d, writes, group) && InOrder(plan)
    ensures PlansBelow(d, more, group + 1) && InOrder(more)
  {
    hide PlansBelow, Lists, EnabledLast, Sorted, InOrder;
    var sorted := Sort(writes);
    SortedEnables(sorted);
    SortedLists(d, writes, sorted, group);
    Extends(d, plan, group, sorted);
    ExtendsOrder(d, plan, group, sorted);
    more := plan + sorted;
  }

  /** The writes of a document in the order Apply makes them. */
  method Plan(d: Document) returns (plan: seq<Write>)
    requires ValidDocument(d)
    ensures Plans(d, plan) && InOrder(plan)
    ensures |d.revokeTokens| <= |plan| && plan[|plan| - |d.revokeTokens|..] == RevokeTokens(d)
  {
    plan := [];
    assert PlansBelow(d, plan, 0) && InOrder(plan);
    PutRulesList(d);
    RemoveRulesList(d);
    PutIdentitiesList(d);
    RemoveIdentitiesList(d);
    RevokeGrantsList(d);
    PutGrantsList(d);
    RevokeTokensList(d);
    hide ValidDocument, Lists, PlansBelow, EnabledLast, InOrder;
    plan := NextGroup(d, plan, 0, PutRules(d));
    plan := NextGroup(d, plan, 1, RemoveRules(d));
    plan := NextGroup(d, plan, 2, PutIdentities(d));
    plan := NextGroup(d, plan, 3, RemoveIdentities(d));
    plan := NextGroup(d, plan, 4, RevokeGrants(d));
    plan := NextGroup(d, plan, 5, PutGrants(d));
    NoneEnabled(RevokeTokens(d), d);
    Extends(d, plan, 6, RevokeTokens(d));
    ExtendsOrder(d, plan, 6, RevokeTokens(d));
    plan := plan + RevokeTokens(d);
    Whole(d, plan);
  }

  lemma NoneEnabled(writes: seq<Write>, d: Document)
    requires Lists(d, writes, 6)
    ensures EnabledLast(writes)
  {
    assert forall i :: 0 <= i < |writes| ==> writes[i] in writes;
  }

  lemma Whole(d: Document, writes: seq<Write>)
    requires PlansBelow(d, writes, 7)
    ensures Plans(d, writes)
  {
    assert forall w: Write :: Group(w) < 7;
  }

  // ---------- the store ----------

  class PolicyStore {
    var tables: Tables
    var workspaces: set<string>

    constructor (workspaces: set<string>)
      ensures tables == Tables(map[], map[], map[], map[]) && this.workspaces == workspaces
    {
      this.tables, this.workspaces := Tables(map[], map[], map[], map[]), workspaces;
    }

    /** One statement; a change is recorded when it touched a row. */
    method Run(w: Write) returns (change: Option<Change>)
      modifies this`tables
      ensures (tables, change) == Execute(old(tables), w)
    {
      match w
      case PutRule(r) =>
        var (rows, c) := PutRuleRow(tables.rules, r);
        tables, change := tables.(rules := rows), c;
      case RemoveRule(id) =>
        var (rows, c) := RemoveRuleRow(tables.rules, id);
        tables, change := tables.(rules := rows), c;
      case PutIdentity(i) =>
        var (rows, c) := PutIdentityRow(tables.identities, i);
        tables, change := tables.(identities := rows), c;
      case RemoveIdentity(id) =>
        var (rows, c) := RemoveIdentityRow(tables.identities, id);
        tables, change := tables.(identities := rows), c;
      case RevokeGrant(id) =>
        var (rows, c) := RevokeGrantRow(tables.grants, id);
        tables, change := tables.(grants := rows), c;
      case PutGrant(g) =>
        var (rows, c) := PutGrantRow(tables.grants, g);
        tables, change := tables.(grants := rows), c;
      case RevokeToken(id, ws) =>
        var (rows, c) := RevokeTokenRow(tables.tokens, id, ws);
        tables, change := tables.(tokens := rows), c;
    }

    /** The write loops: after each write, still at most one active grant for an identity in a workspace. */
    method RunAll(d: Document, plan: seq<Write>) returns (changes: seq<Change>)
      requires OneActive(tables.grants) && ValidDocument(d) && ReferencesOK(tables, workspaces, d) && Plans(d, plan)
      modifies this`tables
      ensures tables == Written(old(tables), plan) && changes == Changes(old(tables), plan) && OneActive(tables.grants)
    {
      hide Execute, ValidDocument, ReferencesOK, Plans, OneActive;
      changes := [];
      for i := 0 to |plan|
        invariant tables == Written(old(tables), plan[..i]) && changes == Changes(old(tables), plan[..i])
        invariant OneActive(tables.grants)
      {
        var change := Run(plan[i]);
        assert plan[..i + 1][..i] == plan[..i];
        if change.Some? {
          changes := changes + [change.value];
        }
        OneActiveThroughout(old(tables), workspaces, d, plan, i + 1);
      }
      assert plan[..|plan|] == plan;
    }

    /** Apply: None is a refused document. */
    method Apply(d: Document) returns (changes: Option<seq<Change>>, ghost plan: seq<Write>)
      requires OneActive(tables.grants) && UniqueSubjects(tables.identities)
      modifies this`tables
      ensures changes.Some? <==> ValidDocument(d) && ReferencesOK(old(tables), workspaces, d)
      ensures changes.None? ==> tables == old(tables)
      ensures changes.Some? ==> InOrder(plan)
      ensures changes.Some? ==> Plans(d, plan) && tables == Written(old(tables), plan) && changes.value == Changes(old(tables), plan)
      ensures OneActive(tables.grants) && UniqueSubjects(tables.identities)
    {
      hide Execute, ValidDocument, ReferencesOK, Plans, OneActive, UniqueSubjects, Written, Changes, InOrder;
      plan := [];
      var valid := CheckDocument(d);
      if !valid {
        return None, [];
      }
      var allowed := CheckReferences(tables, workspaces, d);
      if !allowed {
        return None, [];
      }
      var writes := Plan(d);
      var made := RunAll(d, writes);
      assert writes[..|writes|] == writes;
      UniqueSubjectsThroughout(old(tables), workspaces, d, writes, |writes|);
      return Some(made), writes;
    }
  }
}
