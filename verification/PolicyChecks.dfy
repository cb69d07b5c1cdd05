/**
 The two validators of an import as they run: loops that fill sets of what they have seen,
 proved to decide exactly what a document must be and what the rows must allow.
 */
module PolicyChecks {
  import opened Options
  import opened Principals
  import opened Policies
  import opened PolicyLaws

  // ---------- the document ----------

  /** The IDs seen so far of one kind. */
  ghost predicate Tracks(seen: set<(string, string)>, kind: string, ids: seq<string>) {
    forall id :: (kind, id) in seen <==> id in ids
  }

  /** Adds the IDs of one kind, as long as each is acceptable and new. */
  method AddAll(seen: set<(string, string)>, kind: string, ids: seq<string>) returns (ok: bool, more: set<(string, string)>)
    requires forall id :: (kind, id) !in seen
    ensures ok == Named(ids)
    ensures forall other, id :: other != kind ==> ((other, id) in more <==> (other, id) in seen)
  {
    more := seen;
    for i := 0 to |ids|
      invariant Tracks(more, kind, ids[..i]) && Named(ids[..i])
      invariant forall other, id :: other != kind ==> ((other, id) in more <==> (other, id) in seen)
    {
      var id := ids[i];
      assert ids[..i + 1] == ids[..i] + [id];
      if !BoundedIdentity(id) || (kind, id) in more {
        assert id in ids && (id in ids[..i] ==> !NoDuplicates(ids));
        return false, more;
      }
      more := more + {(kind, id)};
    }
    assert ids[..|ids|] == ids;
    return true, more;
  }

  ghost predicate SubjectsApart(identities: seq<IdentityChange>) {
    forall j, k :: 0 <= j < k < |identities| ==> !SameSubject(identities[j], identities[k])
  }

  method CheckIdentities(identities: seq<IdentityChange>) returns (ok: bool)
    ensures ok == (SubjectsApart(identities) && forall i :: i in identities ==> GoodIdentity(i))
  {
    var subjects: set<(string, string, string)> := {};
    for n := 0 to |identities|
      invariant forall s :: s in subjects <==> exists j :: 0 <= j < n && s == (identities[j].organization, identities[j].issuer, identities[j].subject)
      invariant SubjectsApart(identities[..n]) && forall i :: i in identities[..n] ==> GoodIdentity(i)
    {
      var i := identities[n];
      assert identities[..n + 1] == identities[..n] + [i];
      if (i.organization, i.issuer, i.subject) in subjects {
        return false;
      }
      subjects := subjects + {(i.organization, i.issuer, i.subject)};
      if !GoodIdentity(i) {
        assert i in identities;
        return false;
      }
    }
    assert identities[..|identities|] == identities;
    return true;
  }

  ghost predicate ScopesApart(grants: seq<GrantChange>) {
    forall j, k :: 0 <= j < k < |grants| && grants[j].enabled && grants[k].enabled ==> !SameScope(grants[j], grants[k])
  }

  method CheckGrants(grants: seq<GrantChange>) returns (ok: bool)
    ensures ok == (ScopesApart(grants) && forall g :: g in grants ==> GoodGrant(g))
  {
    var scopes: set<(string, string)> := {};
    for n := 0 to |grants|
      invariant forall s :: s in scopes <==> exists j :: 0 <= j < n && grants[j].enabled && s == (grants[j].identityID, grants[j].workspaceID)
      invariant ScopesApart(grants[..n]) && forall g :: g in grants[..n] ==> GoodGrant(g)
    {
      var g := grants[n];
      assert grants[..n + 1] == grants[..n] + [g];
      if g.enabled {
        if (g.identityID, g.workspaceID) in scopes {
          return false;
        }
        scopes := scopes + {(g.identityID, g.workspaceID)};
      }
      if !GoodGrant(g) {
        assert g in grants;
        return false;
      }
    }
    assert grants[..|grants|] == grants;
    return true;
  }

  method CheckRules(rules: seq<RuleChange>) returns (ok: bool)
    ensures ok == forall r :: r in rules ==> r.revision == 0 && r.wellFormed
  {
    for n := 0 to |rules|
      invariant forall r :: r in rules[..n] ==> r.revision == 0 && r.wellFormed
    {
      assert rules[..n + 1] == rules[..n] + [rules[n]];
      if rules[n].revision != 0 || !rules[n].wellFormed {
        assert rules[n] in rules;
        return false;
      }
    }
    assert rules[..|rules|] == rules;
    return true;
  }

  method CheckTokens(tokens: seq<(string, string)>) returns (ok: bool)
    ensures ok == forall t :: t in tokens ==> BoundedIdentity(t.1)
  {
    for n := 0 to |tokens|
      invariant forall t :: t in tokens[..n] ==> BoundedIdentity(t.1)
    {
      assert tokens[..n + 1] == tokens[..n] + [tokens[n]];
      if !BoundedIdentity(tokens[n].1) {
        assert tokens[n] in tokens;
        return false;
      }
    }
    assert tokens[..|tokens|] == tokens;
    return true;
  }

  method CheckNames(d: Document) returns (ok: bool)
    ensures ok == (Named(RuleIDs(d)) && Named(IdentityIDs(d)) && Named(GrantIDs(d)) && Named(TokenIDs(d)))
  {
    hide Named, RuleIDs, IdentityIDs, GrantIDs, TokenIDs;
    var seen: set<(string, string)> := {};
    var rules, identities, grants, tokens;
    rules, seen := AddAll(seen, "rule", RuleIDs(d));
    identities, seen := AddAll(seen, "identity", IdentityIDs(d));
    grants, seen := AddAll(seen, "grant", GrantIDs(d));
    tokens, seen := AddAll(seen, "token", TokenIDs(d));
    return rules && identities && grants && tokens;
  }

  /** validatePolicyDocument. */
  method CheckDocument(d: Document) returns (ok: bool)
    ensures ok == ValidDocument(d)
  {
    hide Named, RuleIDs, IdentityIDs, GrantIDs, TokenIDs, GoodIdentity, GoodGrant, SameSubject, SameScope;
    if Size(d) > 1000 {
      return false;
    }
    var names := CheckNames(d);
    var rules := CheckRules(d.rules);
    var identities := CheckIdentities(d.identities);
    var grants := CheckGrants(d.grants);
    var tokens := CheckTokens(d.revokeTokens);
    return names && rules && identities && grants && tokens;
  }

  // ---------- the rows ----------

  /** The identity row with the subject, if there is one. */
  method FindSubject(identities: map<string, IdentityRow>, i: IdentityChange) returns (found: Option<string>)
    ensures found.Some? ==> found.value in identities && HasSubject(identities[found.value], i)
    ensures found.None? ==> forall id :: id in identities ==> !HasSubject(identities[id], i)
  {
    var rest := identities.Keys;
    while rest != {}
      invariant rest <= identities.Keys
      invariant forall id :: id in identities && id !in rest ==> !HasSubject(identities[id], i)
      decreases |rest|
    {
      var id :| id in rest;
      if HasSubject(identities[id], i) {
        return Some(id);
      }
      rest := rest - {id};
    }
    return None;
  }

  method CheckIdentityFits(tables: Tables, i: IdentityChange) returns (ok: bool)
    requires UniqueSubjects(tables.identities)
    ensures ok == IdentityFits(tables, i)
  {
    if i.id in tables.identities {
      var row := tables.identities[i.id];
      if !HasSubject(row, i) || row.kind != i.kind || row.account != i.account {
        return false;
      }
    }
    var existing := FindSubject(tables.identities, i);
    return existing.None? || existing.value == i.id;
  }

  /** Another active grant in the scope, if there is one. */
  method FindActive(grants: map<string, GrantRow>, g: GrantChange) returns (found: Option<string>)
    ensures found.Some? ==> found.value in grants && found.value != g.id && Active(grants[found.value]) && InScope(grants[found.value], g)
    ensures found.None? ==> forall id :: id in grants && id != g.id && Active(grants[id]) ==> !InScope(grants[id], g)
  {
    var rest := grants.Keys;
    while rest != {}
      invariant rest <= grants.Keys
      invariant forall id :: id in grants && id !in rest && id != g.id && Active(grants[id]) ==> !InScope(grants[id], g)
      decreases |rest|
    {
      var id :| id in rest;
      if id != g.id && Active(grants[id]) && InScope(grants[id], g) {
        return Some(id);
      }
      rest := rest - {id};
    }
    return None;
  }

  method RetiringGrants(d: Document) returns (retiring: set<string>)
    ensures forall id :: id in retiring <==> Retiring(d, id)
  {
    retiring := {};
    for n := 0 to |d.revokeGrants|
      invariant forall id :: id in retiring <==> id in d.revokeGrants[..n]
    {
      assert d.revokeGrants[..n + 1] == d.revokeGrants[..n] + [d.revokeGrants[n]];
      retiring := retiring + {d.revokeGrants[n]};
    }
    assert d.revokeGrants[..|d.revokeGrants|] == d.revokeGrants;
    for n := 0 to |d.grants|
      invariant forall id :: id in retiring <==> id in d.revokeGrants || exists g :: g in d.grants[..n] && !g.enabled && g.id == id
    {
      assert d.grants[..n + 1] == d.grants[..n] + [d.grants[n]];
      if !d.grants[n].enabled {
        retiring := retiring + {d.grants[n].id};
      }
    }
    assert d.grants[..|d.grants|] == d.grants;
  }

  method SuppliedIdentities(d: Document) returns (supplied: set<string>)
    ensures forall id :: id in supplied <==> exists i :: i in d.identities && i.id == id
  {
    supplied := {};
    for n := 0 to |d.identities|
      invariant forall id :: id in supplied <==> exists i :: i in d.identities[..n] && i.id == id
    {
      assert d.identities[..n + 1] == d.identities[..n] + [d.identities[n]];
      supplied := supplied + {d.identities[n].id};
    }
    assert d.identities[..|d.identities|] == d.identities;
  }

  method CheckGrantFits(tables: Tables, workspaces: set<string>, d: Document, supplied: set<string>, retiring: set<string>, g: GrantChange)
    returns (ok: bool)
    requires OneActive(tables.grants)
    requires forall id :: id in supplied <==> exists i :: i in d.identities && i.id == id
    requires forall id :: id in retiring <==> Retiring(d, id)
    ensures ok == GrantFits(tables, workspaces, d, g)
  {
    hide Retiring;
    if g.workspaceID !in workspaces {
      return false;
    }
    if g.identityID !in supplied && (g.identityID !in tables.identities || tables.identities[g.identityID].removed) {
      return false;
    }
    if g.enabled {
      var active := FindActive(tables.grants, g);
      if active.Some? && active.value !in retiring {
        return false;
      }
      assert forall id :: id in tables.grants && id != g.id && Active(tables.grants[id]) && InScope(tables.grants[id], g) ==> active == Some(id);
    }
    return g.id in tables.grants ==> InScope(tables.grants[g.id], g) && !tables.grants[g.id].revoked;
  }

  method CheckAllFit(tables: Tables, workspaces: set<string>, d: Document) returns (ok: bool)
    requires OneActive(tables.grants) && UniqueSubjects(tables.identities)
    ensures ok == ((forall i :: i in d.identities ==> IdentityFits(tables, i)) &&
                   (forall g :: g in d.grants ==> GrantFits(tables, workspaces, d, g)))
  {
    var supplied := SuppliedIdentities(d);
    var retiring := RetiringGrants(d);
    hide IdentityFits, GrantFits, Retiring;
    for n := 0 to |d.identities|
      invariant forall i :: i in d.identities[..n] ==> IdentityFits(tables, i)
    {
      assert d.identities[..n + 1] == d.identities[..n] + [d.identities[n]];
      var fits := CheckIdentityFits(tables, d.identities[n]);
      if !fits {
        assert d.identities[n] in d.identities;
        return false;
      }
    }
    assert d.identities[..|d.identities|] == d.identities;
    for n := 0 to |d.grants|
      invariant forall g :: g in d.grants[..n] ==> GrantFits(tables, workspaces, d, g)
    {
      assert d.grants[..n + 1] == d.grants[..n] + [d.grants[n]];
      var fits := CheckGrantFits(tables, workspaces, d, supplied, retiring, d.grants[n]);
      if !fits {
        assert d.grants[n] in d.grants;
        return false;
      }
    }
    assert d.grants[..|d.grants|] == d.grants;
    return true;
  }

  method AllExist(ids: seq<string>, rows: set<string>) returns (ok: bool)
    ensures ok == forall id :: id in ids ==> id in rows
  {
    for n := 0 to |ids|
      invariant forall id :: id in ids[..n] ==> id in rows
    {
      assert ids[..n + 1] == ids[..n] + [ids[n]];
      if ids[n] !in rows {
        assert ids[n] in ids;
        return false;
      }
    }
    assert ids[..|ids|] == ids;
    return true;
  }

  method TokensExist(d: Document, tokens: map<string, TokenRow>) returns (ok: bool)
    ensures ok == forall t :: t in d.revokeTokens ==> t.0 in tokens && tokens[t.0].workspaceID == t.1
  {
    for n := 0 to |d.revokeTokens|
      invariant forall t :: t in d.revokeTokens[..n] ==> t.0 in tokens && tokens[t.0].workspaceID == t.1
    {
      var t := d.revokeTokens[n];
      assert d.revokeTokens[..n + 1] == d.revokeTokens[..n] + [t];
      if t.0 !in tokens || tokens[t.0].workspaceID != t.1 {
        assert t in d.revokeTokens;
        return false;
      }
    }
    assert d.revokeTokens[..|d.revokeTokens|] == d.revokeTokens;
    return true;
  }

  /** validatePolicyReferences. */
  method CheckReferences(tables: Tables, workspaces: set<string>, d: Document) returns (ok: bool)
    requires OneActive(tables.grants) && UniqueSubjects(tables.identities)
    ensures ok == ReferencesOK(tables, workspaces, d)
  {
    hide IdentityFits, GrantFits;
    var fit := CheckAllFit(tables, workspaces, d);
    var rules := AllExist(d.removeRules, tables.rules.Keys);
    var identities := AllExist(d.removeIdentities, tables.identities.Keys);
    var grants := AllExist(d.revokeGrants, tables.grants.Keys);
    var tokens := TokensExist(d, tables.tokens);
    return fit && rules && identities && grants && tokens;
  }
}
