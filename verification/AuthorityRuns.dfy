/**
 The authority tables and the credentials stamped from them, over every run of imports,
 admissions, token issues and key issuances.
 */
module AuthorityRuns {
  import opened Options
  import opened Principals
  import opened Policies
  import opened PolicyLaws
  import opened PolicyRevisions
  import opened Issuance

  const DAY: int := 86_400 * SECOND

  datatype Step =
    | Import(document: Document, writes: seq<Write>)
    | Issue(id: string, proof: Proof, selectors: Selectors, defaultWorkspace: string, identityID: string, rows: seq<string>)
    | Create(id: string, principal: Principal, nameOK: bool)
    | Bootstrap(id: string, workspaceID: string)
    | ManageKey(id: string, expires: Option<int>, revoked: bool)
    | Prune(id: string)
    | AddWorkspace(id: string)
    | Elapse(time: nat)

  ghost predicate Can(s: Store, step: Step) {
    match step
    case Import(d, writes) => ValidDocument(d) && ReferencesOK(s.tables, s.workspaces, d) && Plans(d, writes)
    case Issue(id, proof, sel, defaultWorkspace, identityID, rows) =>
      && id !in s.tables.tokens && BoundedIdentity(id)
      && (if identityID == "" then forall i :: !Proves(s.tables, proof, i) else Proves(s.tables, proof, identityID))
      && (SelectedWorkspace(sel, defaultWorkspace).Some? ==>
            Looks(s.tables, identityID, SelectedWorkspace(sel, defaultWorkspace).value, rows))
    case Create(id, _, _) => id !in s.keys && BoundedIdentity(id)
    case Bootstrap(id, ws) => id !in s.keys && BoundedIdentity(id) && ws in s.workspaces
    case ManageKey(id, _, _) => id in s.keys
    case Prune(id) => id in s.tables.tokens && s.tables.tokens[id].expires < s.now - DAY
    case AddWorkspace(id) => BoundedIdentity(id)
    case Elapse(_) => true
  }

  function AddKey(s: Store, id: string, row: Option<KeyRow>): Store {
    if row.Some? then s.(keys := s.keys[id := row.value]) else s
  }

  function AddToken(s: Store, id: string, row: Option<TokenRow>): Store {
    if row.Some? then s.(tables := s.tables.(tokens := s.tables.tokens[id := row.value])) else s
  }

  /** Key management changes neither the lineage nor the ceiling of a key. */
  ghost function Next(s: Store, step: Step): Store
    requires Can(s, step)
  {
    match step
    case Import(d, writes) => s.(tables := Written(s.tables, writes))
    case Issue(id, proof, sel, defaultWorkspace, identityID, rows) =>
      AddToken(s, id, Issued(s, proof, sel, defaultWorkspace, identityID, rows))
    case Create(id, p, nameOK) => AddKey(s, id, Created(s, p, nameOK))
    case Bootstrap(id, ws) => AddKey(s, id, Some(KeyRow(ws, Independent, None, false)))
    case ManageKey(id, expires, revoked) => s.(keys := s.keys[id := s.keys[id].(expires := expires, revoked := revoked)])
    case Prune(id) => s.(tables := s.tables.(tokens := s.tables.tokens - {id}))
    case AddWorkspace(id) => s.(workspaces := s.workspaces + {id})
    case Elapse(time) => s.(now := s.now + time)
  }

  // ---------- the invariant ----------

  ghost predicate RulesOK(rules: map<string, RuleRow>) { forall id :: id in rules ==> BoundedIdentity(id) && rules[id].revision > 0 }

  ghost predicate IdentitiesOK(identities: map<string, IdentityRow>) {
    forall id :: id in identities ==>
      BoundedIdentity(id) && identities[id].revision > 0 && identities[id].kind in {"human", "service"}
  }

  ghost predicate GrantsOK(grants: map<string, GrantRow>) {
    forall id :: id in grants ==> BoundedIdentity(id) && grants[id].revision > 0 && BoundedIdentity(grants[id].workspaceID)
  }

  ghost predicate RootsOK(t: Tables) { RulesOK(t.rules) && IdentitiesOK(t.identities) && GrantsOK(t.grants) }

  /** The stamps name existing rows and are not ahead of them. */
  ghost predicate NotAhead(t: Tables, l: Lineage) {
    && l.ruleID in t.rules && 0 < l.ruleRevision <= t.rules[l.ruleID].revision
    && l.identityID in t.identities && 0 < l.identityRevision <= t.identities[l.identityID].revision
    && l.grantID in t.grants && 0 < l.grantRevision <= t.grants[l.grantID].revision
    && l.policyVersion == POLICY_VERSION
  }

  ghost predicate TokenOK(t: Tables, id: string, row: TokenRow) {
    BoundedIdentity(id) && BoundedIdentity(row.workspaceID) && NotAhead(t, row.lineage)
  }

  /** A key issued under an identity's grant: its lineage is its parent's, and it may do no more. */
  ghost predicate Descends(s: Store, row: KeyRow)
    requires row.authority.Granted?
  {
    var a := row.authority;
    match a.parent.kind
    case APIKey =>
      && a.parent.id in s.keys && s.keys[a.parent.id].authority.Granted?
      && s.keys[a.parent.id].workspaceID == row.workspaceID
      && s.keys[a.parent.id].authority.lineage == a.lineage
      && forall op :: op in a.operations ==> op in s.keys[a.parent.id].authority.operations
    case AccessToken => true
    case ConnectionKey => false
  }

  ghost predicate KeyOK(s: Store, id: string, row: KeyRow) {
    && BoundedIdentity(id) && BoundedIdentity(row.workspaceID)
    && (row.authority.Granted? ==>
          NotAhead(s.tables, row.authority.lineage) && ValidOperations(row.authority.operations) && Descends(s, row))
  }

  ghost predicate Inv(s: Store) {
    && RootsOK(s.tables) && OneActive(s.tables.grants) && UniqueSubjects(s.tables.identities)
    && (forall id :: id in s.tables.tokens ==> TokenOK(s.tables, id, s.tables.tokens[id]))
    && (forall id :: id in s.keys ==> KeyOK(s, id, s.keys[id]))
    && (forall ws :: ws in s.workspaces ==> BoundedIdentity(ws))
  }

  // ---------- imports keep it ----------

  /** What a valid document gives each of its writes. */
  ghost predicate Sound(w: Write) {
    BoundedIdentity(TargetOf(w).id) && (w.PutIdentity? ==> GoodIdentity(w.identity)) && (w.PutGrant? ==> GoodGrant(w.grant))
  }

  lemma AskedSound(d: Document, w: Write)
    requires ValidDocument(d) && Asks(d, w)
    ensures Sound(w)
  {
    var ids, at := Places(d, w);
    assert ids[at] in ids;
  }

  lemma WriteRoots(t: Tables, w: Write)
    requires RootsOK(t) && Sound(w)
    ensures RootsOK(Execute(t, w).0)
  {
  }

  lemma {:induction false} ImportRoots(t: Tables, d: Document, writes: seq<Write>)
    requires RootsOK(t) && ValidDocument(d) && forall w :: w in writes ==> Asks(d, w)
    ensures RootsOK(Written(t, writes))
  {
    hide ValidDocument, Execute, RootsOK, Sound;
    if writes != [] {
      ImportRoots(t, d, writes[..|writes| - 1]);
      assert writes[|writes| - 1] in writes;
      AskedSound(d, writes[|writes| - 1]);
      WriteRoots(Written(t, writes[..|writes| - 1]), writes[|writes| - 1]);
    }
  }

  /** An import only revokes tokens. */
  ghost predicate TokensStay(a: map<string, TokenRow>, b: map<string, TokenRow>) {
    a.Keys == b.Keys && forall id :: id in a ==> b[id] == a[id] || b[id] == a[id].(revoked := true)
  }

  lemma {:induction false} ImportTokens(t: Tables, writes: seq<Write>)
    ensures TokensStay(t.tokens, Written(t, writes).tokens)
  {
    hide Execute;
    if writes != [] {
      ImportTokens(t, writes[..|writes| - 1]);
      WriteTokens(Written(t, writes[..|writes| - 1]), writes[|writes| - 1]);
    }
  }

  lemma WriteTokens(t: Tables, w: Write)
    ensures TokensStay(t.tokens, Execute(t, w).0.tokens)
  {
  }

  lemma TokensFollowTables(s: Tables, t: Tables)
    requires (forall id :: id in s.tokens ==> TokenOK(s, id, s.tokens[id])) && Advances(s, t) && TokensStay(s.tokens, t.tokens)
    ensures forall id :: id in t.tokens ==> TokenOK(t, id, t.tokens[id])
  {
  }

  lemma KeysFollowTables(s: Store, t: Tables)
    requires (forall id :: id in s.keys ==> KeyOK(s, id, s.keys[id])) && Advances(s.tables, t)
    ensures forall id :: id in s.keys ==> KeyOK(s.(tables := t), id, s.keys[id])
  {
  }

  lemma ImportKeeps(s: Store, d: Document, writes: seq<Write>)
    requires Inv(s) && Can(s, Import(d, writes))
    ensures Inv(Next(s, Import(d, writes)))
  {
    var t := Written(s.tables, writes);
    hide Written, ValidDocument, ReferencesOK, RootsOK, OneActive, UniqueSubjects, Advances, KeyOK, TokenOK, TokensStay;
    assert writes[..|writes|] == writes;
    OneActiveThroughout(s.tables, s.workspaces, d, writes, |writes|);
    UniqueSubjectsThroughout(s.tables, s.workspaces, d, writes, |writes|);
    ImportRoots(s.tables, d, writes);
    ImportTokens(s.tables, writes);
    ImportAdvances(s.tables, writes);
    KeysFollowTables(s, t);
    TokensFollowTables(s.tables, t);
  }

  // ---------- credentials keep it ----------

  /** A lineage that is locked is stamped with the current revisions. */
  lemma LockedIsCurrent(t: Tables, l: Lineage, ws: string)
    requires RootsOK(t) && LockCurrent(t, l, ws).Some?
    ensures NotAhead(t, l) && InForce(t, l, ws) && Stamped(t, l)
  {
  }

  lemma SameTables(s: Store, s': Store)
    requires Inv(s) && s'.tables.rules == s.tables.rules && s'.tables.identities == s.tables.identities
    requires s'.tables.grants == s.tables.grants && s'.keys == s.keys
    ensures forall id :: id in s'.keys ==> KeyOK(s', id, s'.keys[id])
    ensures forall id :: id in s.tables.tokens ==> TokenOK(s'.tables, id, s.tables.tokens[id])
  {
  }

  /** A token is stamped with the revisions that are current, of rows that are in force. */
  lemma TokenStampedCurrent(s: Store, step: Step)
    requires Inv(s) && Can(s, step) && step.Issue?
    ensures var row := Issued(s, step.proof, step.selectors, step.defaultWorkspace, step.identityID, step.rows);
            row.Some? ==>
              && InForce(s.tables, row.value.lineage, row.value.workspaceID) && Stamped(s.tables, row.value.lineage)
              && TokenOK(s.tables, step.id, row.value)
              && s.now + 120 * SECOND < row.value.expires <= s.now + 600 * SECOND && row.value.expires <= step.proof.expires
  {
  }

  lemma IssueKeeps(s: Store, step: Step)
    requires Inv(s) && Can(s, step) && step.Issue?
    ensures Inv(Next(s, step))
  {
    TokenStampedCurrent(s, step);
    var row := Issued(s, step.proof, step.selectors, step.defaultWorkspace, step.identityID, step.rows);
    if row.Some? {
      var s' := Next(s, step);
      hide Issued, RootsOK, OneActive, KeyOK, InForce;
      SameTables(s, s');
      forall id | id in s'.tables.tokens
        ensures TokenOK(s'.tables, id, s'.tables.tokens[id])
      {
        if id != step.id {
          assert TokenOK(s'.tables, id, s.tables.tokens[id]);
        }
      }
    }
  }

  /** A new key row leaves the other rows in order. */
  lemma AddKeyKeeps(s: Store, id: string, row: KeyRow)
    requires Inv(s) && id !in s.keys && KeyOK(s, id, row)
    ensures Inv(s.(keys := s.keys[id := row]))
  {
  }

  /** What reading the issuer's row again gives: the same lineage, and every operation claimed. */
  lemma IssuerMatches(s: Store, p: Principal)
    requires Inv(s) && Created(s, p, true).Some? && p.authority.kind.IdentityGrant?
    ensures p.credential.kind.APIKey? ==>
      && p.credential.id in s.keys && s.keys[p.credential.id].authority.Granted?
      && s.keys[p.credential.id].workspaceID == p.workspaceID && s.keys[p.credential.id].authority.lineage == p.authority.lineage
      && forall op :: op in p.authority.operations ==> op in s.keys[p.credential.id].authority.operations
    ensures p.credential.kind.AccessToken? ==>
      && p.credential.id in s.tables.tokens && s.tables.tokens[p.credential.id].workspaceID == p.workspaceID
      && s.tables.tokens[p.credential.id].lineage == p.authority.lineage
  {
    if p.credential.kind.APIKey? {
      var row := s.keys[p.credential.id];
      assert KeyOK(s, p.credential.id, row);
      SameOperationsExactly(row.authority.operations, p.authority.operations);
    }
  }

  /** A child key is stamped with its issuer's lineage, which is current, and may do no more than its issuer. */
  lemma CreatedOK(s: Store, id: string, p: Principal)
    requires Inv(s) && BoundedIdentity(id) && Created(s, p, true).Some?
    ensures KeyOK(s, id, Created(s, p, true).value)
  {
    var row := Created(s, p, true).value;
    if p.authority.kind.IdentityGrant? {
      IssuerMatches(s, p);
      InheritedValid(p.authority.operations);
      LockedIsCurrent(s.tables, p.authority.lineage, p.workspaceID);
    }
  }

  lemma ManageKeeps(s: Store, id: string, expires: Option<int>, revoked: bool)
    requires Inv(s) && id in s.keys
    ensures Inv(s.(keys := s.keys[id := s.keys[id].(expires := expires, revoked := revoked)]))
  {
  }

  lemma StepKeeps(s: Store, step: Step)
    requires Inv(s) && Can(s, step)
    ensures Inv(Next(s, step))
  {
    match step
    case Import(d, writes) => ImportKeeps(s, d, writes);
    case Issue(_, _, _, _, _, _) => IssueKeeps(s, step);
    case Create(id, p, nameOK) =>
      if Created(s, p, nameOK).Some? {
        CreatedOK(s, id, p);
        AddKeyKeeps(s, id, Created(s, p, nameOK).value);
      }
    case Bootstrap(id, ws) => AddKeyKeeps(s, id, KeyRow(ws, Independent, None, false));
    case ManageKey(id, expires, revoked) => ManageKeeps(s, id, expires, revoked);
    case _ => SameTables(s, Next(s, step));
  }
}
