/**
 A second import of the same document does nothing, and revisions only grow: a row that
 changes in any way gets a later revision than it had.
 */
module PolicyRevisions {
  import opened Options
  import opened Principals
  import opened Policies

  // ---------- imports are idempotent ----------

  datatype Target = OnRule(id: string) | OnIdentity(id: string) | OnGrant(id: string) | OnToken(id: string)

  function TargetOf(w: Write): Target {
    match w
    case PutRule(r) => OnRule(r.id)
    case RemoveRule(id) => OnRule(id)
    case PutIdentity(i) => OnIdentity(i.id)
    case RemoveIdentity(id) => OnIdentity(id)
    case RevokeGrant(id) => OnGrant(id)
    case PutGrant(g) => OnGrant(g.id)
    case RevokeToken(id, _) => OnToken(id)
  }

  /** The write would change nothing and report nothing. */
  ghost predicate Satisfied(tables: Tables, w: Write) { Execute(tables, w) == (tables, None) }

  lemma WrittenOnce(tables: Tables, w: Write)
    ensures Satisfied(Execute(tables, w).0, w)
  {
  }

  lemma OtherTarget(tables: Tables, w: Write, other: Write)
    requires Satisfied(tables, w) && TargetOf(w) != TargetOf(other)
    ensures Satisfied(Execute(tables, other).0, w)
  {
  }

  /** The place of a write's ID among the IDs the document names. */
  lemma Places(d: Document, w: Write) returns (ids: seq<string>, at: nat)
    requires Asks(d, w)
    ensures ids == match TargetOf(w) { case OnRule(_) => RuleIDs(d) case OnIdentity(_) => IdentityIDs(d) case OnGrant(_) => GrantIDs(d) case OnToken(_) => TokenIDs(d) }
    ensures at < |ids| && ids[at] == TargetOf(w).id
    ensures match w
            case PutRule(r) => at < |d.rules| && d.rules[at] == r
            case RemoveRule(id) => at >= |d.rules|
            case PutIdentity(i) => at < |d.identities| && d.identities[at] == i
            case RemoveIdentity(id) => at >= |d.identities|
            case PutGrant(g) => at < |d.grants| && d.grants[at] == g
            case RevokeGrant(id) => at >= |d.grants|
            case RevokeToken(id, ws) => at < |d.revokeTokens| && d.revokeTokens[at] == (id, ws)
  {
    match w
    case PutRule(r) =>
      ids := RuleIDs(d);
      at :| 0 <= at < |d.rules| && d.rules[at] == r;
    case RemoveRule(id) =>
      ids := RuleIDs(d);
      var j :| 0 <= j < |d.removeRules| && d.removeRules[j] == id;
      at := |d.rules| + j;
    case PutIdentity(i) =>
      ids := IdentityIDs(d);
      at :| 0 <= at < |d.identities| && d.identities[at] == i;
    case RemoveIdentity(id) =>
      ids := IdentityIDs(d);
      var j :| 0 <= j < |d.removeIdentities| && d.removeIdentities[j] == id;
      at := |d.identities| + j;
    case PutGrant(g) =>
      ids := GrantIDs(d);
      at :| 0 <= at < |d.grants| && d.grants[at] == g;
    case RevokeGrant(id) =>
      ids := GrantIDs(d);
      var j :| 0 <= j < |d.revokeGrants| && d.revokeGrants[j] == id;
      at := |d.grants| + j;
    case RevokeToken(id, ws) =>
      ids := TokenIDs(d);
      at :| 0 <= at < |d.revokeTokens| && d.revokeTokens[at] == (id, ws);
  }

  /** A valid document names each row once, so no two of its writes touch the same one. */
  lemma TargetsApart(d: Document, a: Write, b: Write)
    requires ValidDocument(d) && Asks(d, a) && Asks(d, b) && TargetOf(a) == TargetOf(b)
    ensures a == b
  {
    var ids, i := Places(d, a);
    var ids', j := Places(d, b);
    assert NoDuplicates(ids);
    assert i == j;
  }

  lemma {:induction false} AllSatisfied(tables: Tables, d: Document, writes: seq<Write>, k: nat, i: nat)
    requires ValidDocument(d) && Plans(d, writes) && i < k <= |writes|
    ensures Satisfied(Written(tables, writes[..k]), writes[i])
  {
    hide Execute, ValidDocument;
    var w := writes[k - 1];
    assert writes[..k][..k - 1] == writes[..k - 1] && writes[..k][k - 1] == w;
    if i == k - 1 {
      WrittenOnce(Written(tables, writes[..k - 1]), w);
    } else {
      AllSatisfied(tables, d, writes, k - 1, i);
      assert writes[i] in writes && w in writes && writes[i] != w;
      if TargetOf(writes[i]) == TargetOf(w) {
        TargetsApart(d, writes[i], w);
      } else {
        OtherTarget(Written(tables, writes[..k - 1]), writes[i], w);
      }
    }
  }

  lemma {:induction false} SatisfiedDoNothing(tables: Tables, writes: seq<Write>)
    requires forall w :: w in writes ==> Satisfied(tables, w)
    ensures Written(tables, writes) == tables && Changes(tables, writes) == []
  {
    hide Execute;
    if writes != [] {
      SatisfiedDoNothing(tables, writes[..|writes| - 1]);
      assert writes[|writes| - 1] in writes;
    }
  }

  /** The same document accepted twice in a row: the second import changes nothing and returns no changes. */
  lemma SecondImportDoesNothing(tables: Tables, d: Document, first: seq<Write>, second: seq<Write>)
    requires ValidDocument(d) && Plans(d, first) && Plans(d, second)
    ensures Written(Written(tables, first), second) == Written(tables, first)
    ensures Changes(Written(tables, first), second) == []
  {
    hide Execute, ValidDocument;
    var after := Written(tables, first);
    assert first[..|first|] == first;
    forall w | w in second
      ensures Satisfied(after, w)
    {
      assert w in first;
      var i :| 0 <= i < |first| && first[i] == w;
      AllSatisfied(tables, d, first, |first|, i);
    }
    SatisfiedDoNothing(after, second);
  }

  // ---------- revisions ----------

  /** Rows stay, and a row that changes gets a later revision. */
  ghost predicate RulesAdvance(a: map<string, RuleRow>, b: map<string, RuleRow>) {
    forall id :: id in a ==> id in b && (b[id] == a[id] || b[id].revision > a[id].revision)
  }

  ghost predicate IdentitiesAdvance(a: map<string, IdentityRow>, b: map<string, IdentityRow>) {
    forall id :: id in a ==>
      id in b && b[id].kind == a[id].kind && (b[id] == a[id] || b[id].revision > a[id].revision)
  }

  ghost predicate GrantsAdvance(a: map<string, GrantRow>, b: map<string, GrantRow>) {
    forall id :: id in a ==> id in b && (b[id] == a[id] || b[id].revision > a[id].revision)
  }

  ghost predicate Advances(a: Tables, b: Tables) {
    RulesAdvance(a.rules, b.rules) && IdentitiesAdvance(a.identities, b.identities) && GrantsAdvance(a.grants, b.grants)
  }

  lemma ExecuteAdvances(tables: Tables, w: Write)
    ensures Advances(tables, Execute(tables, w).0)
  {
  }

  lemma AdvancesTrans(a: Tables, b: Tables, c: Tables)
    requires Advances(a, b) && Advances(b, c)
    ensures Advances(a, c)
  {
  }

  lemma {:induction false} ImportAdvances(tables: Tables, writes: seq<Write>)
    ensures Advances(tables, Written(tables, writes))
  {
    hide Execute;
    if writes != [] {
      var front := writes[..|writes| - 1];
      ImportAdvances(tables, front);
      ExecuteAdvances(Written(tables, front), writes[|writes| - 1]);
      AdvancesTrans(tables, Written(tables, front), Written(tables, writes));
    }
  }

  /** Every change an import returns names a row by the revision that row then has. */
  lemma ChangeNamesRevision(tables: Tables, w: Write)
    requires Execute(tables, w).1.Some? && !w.RevokeToken?
    ensures var (after, change) := Execute(tables, w);
            && change.value.id == TargetOf(w).id
            && match TargetOf(w)
               case OnRule(id) => id in after.rules && after.rules[id].revision == change.value.revision && (id in tables.rules ==> after.rules[id].revision == tables.rules[id].revision + 1)
               case OnIdentity(id) => id in after.identities && after.identities[id].revision == change.value.revision && (id in tables.identities ==> after.identities[id].revision == tables.identities[id].revision + 1)
               case OnGrant(id) => id in after.grants && after.grants[id].revision == change.value.revision && (id in tables.grants ==> after.grants[id].revision == tables.grants[id].revision + 1)
               case OnToken(_) => false
  {
  }
}
