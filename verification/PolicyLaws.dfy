/**
 What an import keeps after every single write, and what a second import of the same
 document does: nothing.
 */
module PolicyLaws {
  import opened Options
  import opened Principals
  import opened Policies

  // ---------- one active grant per identity and workspace ----------

  ghost predicate OneActive(grants: map<string, GrantRow>) {
    forall a, b :: a in grants && b in grants && Active(grants[a]) && Active(grants[b]) && SameRowScope(grants[a], grants[b]) ==> a == b
  }

  predicate SameRowScope(a: GrantRow, b: GrantRow) { a.identityID == b.identityID && a.workspaceID == b.workspaceID }

  /** A grant keeps its scope, or is new with the scope the document gives it. */
  ghost predicate ScopeKept(was: map<string, GrantRow>, d: Document, id: string, row: GrantRow) {
    if id in was then SameRowScope(row, was[id])
    else exists g :: g in d.grants && g.id == id && InScope(row, g)
  }

  /** Some write of the list enables the grant. */
  ghost predicate Enabled(writes: seq<Write>, id: string) { exists w :: w in writes && Enables(w) && w.grant.id == id }

  /** Some write of the list revokes or disables the grant. */
  ghost predicate Retired(writes: seq<Write>, id: string) {
    RevokeGrant(id) in writes || exists w :: w in writes && w.PutGrant? && !w.grant.enabled && w.grant.id == id
  }

  /** Why a grant is active after some writes: one of them enabled it, or it was active and none retired it. */
  ghost predicate Explained(was: map<string, GrantRow>, done: seq<Write>, id: string) {
    Enabled(done, id) || (id in was && Active(was[id]) && !Retired(done, id))
  }

  ghost predicate GrantsFollow(was: map<string, GrantRow>, d: Document, done: seq<Write>, grants: map<string, GrantRow>) {
    && was.Keys <= grants.Keys
    && forall id :: id in grants ==> ScopeKept(was, d, id, grants[id]) && (Active(grants[id]) ==> Explained(was, done, id))
  }

  lemma IDsOnce(d: Document, a: GrantChange, b: GrantChange)
    requires Named(GrantIDs(d)) && a in d.grants && b in d.grants && a.id == b.id
    ensures a == b
  {
    var i :| 0 <= i < |d.grants| && d.grants[i] == a;
    var j :| 0 <= j < |d.grants| && d.grants[j] == b;
    var ids := GrantIDs(d);
    assert ids[i] == a.id && ids[j] == b.id;
  }

  /** One more write: the row it names follows it, and the other rows stay. */
  lemma WriteFollows(was: map<string, GrantRow>, d: Document, done: seq<Write>, w: Write, tables: Tables)
    requires Named(GrantIDs(d)) && GrantsFollow(was, d, done, tables.grants) && Asks(d, w)
    requires w.PutGrant? && w.grant.id in tables.grants ==> InScope(tables.grants[w.grant.id], w.grant)
    ensures GrantsFollow(was, d, done + [w], Execute(tables, w).0.grants)
  {
  }

  /** The scope of a grant the document puts is the document's, whenever it is written. */
  lemma PutInScope(was: Tables, workspaces: set<string>, d: Document, done: seq<Write>, grants: map<string, GrantRow>, g: GrantChange)
    requires ValidDocument(d) && ReferencesOK(was, workspaces, d) && GrantsFollow(was.grants, d, done, grants)
    requires g in d.grants && g.id in grants
    ensures InScope(grants[g.id], g)
  {
    assert GrantFits(was, workspaces, d, g);
    if g.id !in was.grants {
      var h :| h in d.grants && h.id == g.id && InScope(grants[g.id], h);
      IDsOnce(d, g, h);
    }
  }

  lemma {:induction false} PrefixFollows(was: Tables, workspaces: set<string>, d: Document, writes: seq<Write>, k: nat)
    requires ValidDocument(d) && ReferencesOK(was, workspaces, d) && Plans(d, writes) && k <= |writes|
    ensures GrantsFollow(was.grants, d, writes[..k], Written(was, writes[..k]).grants)
  {
    hide ValidDocument, ReferencesOK, GrantsFollow, Execute;
    if k == 0 {
      NothingDone(was, d);
      assert writes[..0] == [];
    } else {
      PrefixFollows(was, workspaces, d, writes, k - 1);
      var tables, w := Written(was, writes[..k - 1]), writes[k - 1];
      assert writes[..k] == writes[..k - 1] + [w] && w in writes;
      assert writes[..k][..k - 1] == writes[..k - 1];
      if w.PutGrant? && w.grant.id in tables.grants {
        PutInScope(was, workspaces, d, writes[..k - 1], tables.grants, w.grant);
      }
      UniqueGrantIDs(d);
      WriteFollows(was.grants, d, writes[..k - 1], w, tables);
    }
  }

  lemma UniqueGrantIDs(d: Document)
    requires ValidDocument(d)
    ensures Named(GrantIDs(d))
  {
  }

  lemma NothingDone(was: Tables, d: Document)
    ensures GrantsFollow(was.grants, d, [], was.grants)
  {
  }

  /** What must be retired has been, once a grant is enabled. */
  lemma RetiredBefore(d: Document, writes: seq<Write>, k: nat, enabled: string, id: string)
    requires Plans(d, writes) && k <= |writes| && Enabled(writes[..k], enabled) && Retiring(d, id)
    ensures Retired(writes[..k], id)
  {
    var e :| e in writes[..k] && Enables(e) && e.grant.id == enabled;
    var i :| 0 <= i < k && writes[i] == e;
    if id in d.revokeGrants {
      assert Asks(d, RevokeGrant(id));
      var m :| 0 <= m < |writes| && writes[m] == RevokeGrant(id);
      assert m < k;
      assert writes[..k][m] == RevokeGrant(id);
    } else {
      var g :| g in d.grants && !g.enabled && g.id == id;
      assert Asks(d, PutGrant(g));
      var m :| 0 <= m < |writes| && writes[m] == PutGrant(g);
      assert m < k;
      assert writes[..k][m] == PutGrant(g);
    }
  }

  lemma EnabledAsks(d: Document, writes: seq<Write>, k: nat, id: string) returns (g: GrantChange)
    requires Plans(d, writes) && k <= |writes| && Enabled(writes[..k], id)
    ensures g in d.grants && g.enabled && g.id == id
  {
    var e :| e in writes[..k] && Enables(e) && e.grant.id == id;
    assert e in writes;
    g := e.grant;
  }

  /** Two grants the document enables never share a scope. */
  lemma EnabledApart(d: Document, a: GrantChange, b: GrantChange)
    requires ValidDocument(d) && a in d.grants && b in d.grants && a.enabled && b.enabled && SameScope(a, b)
    ensures a == b
  {
  }

  /** An enabled grant and one that was active before and is not retired never share a scope. */
  lemma NewAndOldApart(was: Tables, workspaces: set<string>, d: Document, writes: seq<Write>, k: nat, a: string, b: string, g: GrantChange)
    requires ValidDocument(d) && ReferencesOK(was, workspaces, d) && Plans(d, writes) && k <= |writes|
    requires Enabled(writes[..k], a) && g in d.grants && g.enabled && g.id == a
    requires b in was.grants && Active(was.grants[b]) && !Retired(writes[..k], b) && InScope(was.grants[b], g)
    ensures a == b
  {
    assert GrantFits(was, workspaces, d, g);
    if Retiring(d, b) {
      RetiredBefore(d, writes, k, a, b);
    }
  }

  lemma PairApart(was: Tables, workspaces: set<string>, d: Document, writes: seq<Write>, k: nat, grants: map<string, GrantRow>, a: string, b: string)
    requires ValidDocument(d) && ReferencesOK(was, workspaces, d) && Plans(d, writes) && k <= |writes| && OneActive(was.grants)
    requires GrantsFollow(was.grants, d, writes[..k], grants)
    requires a in grants && b in grants && Active(grants[a]) && Active(grants[b]) && SameRowScope(grants[a], grants[b])
    requires Enabled(writes[..k], a) || !Enabled(writes[..k], b)
    ensures a == b
  {
    assert ScopeKept(was.grants, d, a, grants[a]) && Explained(was.grants, writes[..k], a);
    assert ScopeKept(was.grants, d, b, grants[b]) && Explained(was.grants, writes[..k], b);
    hide ValidDocument, ReferencesOK, Plans, GrantsFollow;
    if Enabled(writes[..k], a) {
      var g := EnabledAsks(d, writes, k, a);
      PutInScope(was, workspaces, d, writes[..k], grants, g);
      if Enabled(writes[..k], b) {
        var h := EnabledAsks(d, writes, k, b);
        PutInScope(was, workspaces, d, writes[..k], grants, h);
        EnabledApart(d, g, h);
      } else {
        NewAndOldApart(was, workspaces, d, writes, k, a, b, g);
      }
    }
  }

  /** After every single write of an import, an identity has at most one active grant in a workspace. */
  lemma OneActiveThroughout(was: Tables, workspaces: set<string>, d: Document, writes: seq<Write>, k: nat)
    requires ValidDocument(d) && ReferencesOK(was, workspaces, d) && Plans(d, writes) && k <= |writes| && OneActive(was.grants)
    ensures OneActive(Written(was, writes[..k]).grants)
  {
    PrefixFollows(was, workspaces, d, writes, k);
    var grants := Written(was, writes[..k]).grants;
    hide ValidDocument, ReferencesOK, Plans, GrantsFollow, Enabled, Written;
    forall a, b | a in grants && b in grants && Active(grants[a]) && Active(grants[b]) && SameRowScope(grants[a], grants[b])
      ensures a == b
    {
      if Enabled(writes[..k], a) || !Enabled(writes[..k], b) {
        PairApart(was, workspaces, d, writes, k, grants, a, b);
      } else {
        PairApart(was, workspaces, d, writes, k, grants, b, a);
      }
    }
  }

  // ---------- one identity per subject ----------

  predicate SameRowSubject(a: IdentityRow, b: IdentityRow) {
    a.organization == b.organization && a.issuer == b.issuer && a.subject == b.subject
  }

  /** No two identities share a subject: the table's own constraint, which the validators see to first. */
  ghost predicate UniqueSubjects(identities: map<string, IdentityRow>) {
    forall a, b :: a in identities && b in identities && SameRowSubject(identities[a], identities[b]) ==> a == b
  }

  /** An identity keeps its subject, or is new with the subject the document gives it. */
  ghost predicate SubjectKept(was: map<string, IdentityRow>, d: Document, id: string, row: IdentityRow) {
    if id in was then SameRowSubject(row, was[id]) else exists i :: i in d.identities && i.id == id && HasSubject(row, i)
  }

  ghost predicate IdentitiesFollow(was: map<string, IdentityRow>, d: Document, rows: map<string, IdentityRow>) {
    was.Keys <= rows.Keys && forall id :: id in rows ==> SubjectKept(was, d, id, rows[id])
  }

  lemma IdentityWriteFollows(was: map<string, IdentityRow>, d: Document, w: Write, tables: Tables)
    requires IdentitiesFollow(was, d, tables.identities) && Asks(d, w)
    ensures IdentitiesFollow(was, d, Execute(tables, w).0.identities)
  {
  }

  lemma {:induction false} SubjectsFollow(was: Tables, d: Document, writes: seq<Write>)
    requires forall w :: w in writes ==> Asks(d, w)
    ensures IdentitiesFollow(was.identities, d, Written(was, writes).identities)
  {
    hide Execute, SubjectKept;
    if writes == [] {
      KeptByItself(was.identities, d);
    } else {
      SubjectsFollow(was, d, writes[..|writes| - 1]);
      assert writes[|writes| - 1] in writes;
      IdentityWriteFollows(was.identities, d, writes[|writes| - 1], Written(was, writes[..|writes| - 1]));
    }
  }

  lemma KeptByItself(was: map<string, IdentityRow>, d: Document)
    ensures IdentitiesFollow(was, d, was)
  {
  }

  lemma SubjectsApart(was: Tables, d: Document, rows: map<string, IdentityRow>, a: string, b: string)
    requires ValidDocument(d) && (forall i :: i in d.identities ==> IdentityFits(was, i)) && UniqueSubjects(was.identities)
    requires IdentitiesFollow(was.identities, d, rows)
    requires a in rows && b in rows && SameRowSubject(rows[a], rows[b]) && (b in was.identities ==> a in was.identities)
    ensures a == b
  {
  }

  /** After any of the writes of an import, no two identities share a subject. */
  lemma UniqueSubjectsThroughout(was: Tables, workspaces: set<string>, d: Document, writes: seq<Write>, k: nat)
    requires ValidDocument(d) && ReferencesOK(was, workspaces, d) && Plans(d, writes) && k <= |writes| && UniqueSubjects(was.identities)
    ensures UniqueSubjects(Written(was, writes[..k]).identities)
  {
    assert forall w :: w in writes[..k] ==> w in writes;
    SubjectsFollow(was, d, writes[..k]);
    var rows := Written(was, writes[..k]).identities;
    hide ValidDocument, IdentityFits, GrantFits, IdentitiesFollow, Written, Plans;
    forall a, b | a in rows && b in rows && SameRowSubject(rows[a], rows[b])
      ensures a == b
    {
      if b in was.identities && a !in was.identities {
        SubjectsApart(was, d, rows, b, a);
      } else {
        SubjectsApart(was, d, rows, a, b);
      }
    }
  }
}
