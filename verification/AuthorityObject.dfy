/**
 Token issue, admission and key issuance as they run on the store, each proved to do what
 Issuance says of it.
 */
module AuthorityObject {
  import opened Options
  import opened TextOrder
  import opened Principals
  import opened Policies
  import opened Issuance
  import opened AuthorityRuns

  method MayCreateKeys(p: Principal) returns (ok: bool)
    ensures ok == Authorize(p, API_KEYS_CREATE, WorkspaceScope(p.workspaceID)).None?
  {
    var valid := Validate(p);
    ok := valid && !p.credential.kind.ConnectionKey? && API_KEYS_CREATE in p.authority.operations &&
          p.workspaceID == p.authority.scope.workspaceID && ValidResource(WorkspaceScope(p.workspaceID));
  }

  /** The first two of some texts in order and one more. */
  method FirstTwo(rows: seq<string>, id: string) returns (first: seq<string>)
    requires |rows| <= 2 && (|rows| == 2 ==> TextLess(rows[0], rows[1])) && id !in rows
    ensures |first| <= 2 && (|first| == 2 ==> TextLess(first[0], first[1]))
    ensures forall x :: x in first ==> x in rows || x == id
    ensures forall x :: (x in rows || x == id) && x !in first ==> |first| == 2 && TextLess(first[1], x)
    ensures |rows| == 2 ==> |first| == 2 && forall x :: TextLess(rows[1], x) ==> TextLess(first[1], x)
  {
    if |rows| == 0 {
      return [id];
    }
    TextLessTotal(id, rows[0]);
    if |rows| == 1 {
      return if TextLess(id, rows[0]) then [id, rows[0]] else [rows[0], id];
    }
    TextLessTotal(id, rows[1]);
    forall x | TextLess(rows[1], x)
      ensures TextLess(rows[0], x) && (TextLess(id, rows[1]) ==> TextLess(id, x))
    {
      TextLessTransitive(rows[0], rows[1], x);
      if TextLess(id, rows[1]) {
        TextLessTransitive(id, rows[1], x);
      }
    }
    if TextLess(id, rows[0]) {
      return [id, rows[0]];
    }
    return if TextLess(id, rows[1]) then [rows[0], id] else rows;
  }

  class AuthorityStore {
    var now: int
    var tables: Tables
    var keys: map<string, KeyRow>
    var workspaces: set<string>

    ghost function View(): Store
      reads this
    {
      Store(now, tables, keys, workspaces)
    }

    constructor (now: int, workspaces: set<string>)
      ensures View() == Store(now, Tables(map[], map[], map[], map[]), map[], workspaces)
    {
      this.now, this.tables, this.keys, this.workspaces := now, Tables(map[], map[], map[], map[]), map[], workspaces;
    }

    /** The identity the proof names, or "" if it names none; no identity has an empty ID. */
    method FindIdentity(proof: Proof) returns (id: string)
      requires "" !in tables.identities
      ensures if id == "" then forall i :: !Proves(tables, proof, i) else Proves(tables, proof, id)
    {
      var rest := tables.identities.Keys;
      while rest != {}
        invariant rest <= tables.identities.Keys
        invariant forall i :: i in tables.identities && i !in rest ==> !Proves(tables, proof, i)
        decreases |rest|
      {
        var i :| i in rest;
        if Proves(tables, proof, i) {
          return i;
        }
        rest := rest - {i};
      }
      return "";
    }

    /** The first two grants that match, in the order of their IDs. */
    method LookupGrants(identityID: string, selected: string) returns (rows: seq<string>)
      ensures Looks(tables, identityID, selected, rows)
    {
      rows := [];
      var rest := tables.grants.Keys;
      while rest != {}
        invariant rest <= tables.grants.Keys && |rows| <= 2 && (|rows| == 2 ==> TextLess(rows[0], rows[1]))
        invariant forall id :: id in rows ==> Matches(tables, identityID, selected, id) && id !in rest
        invariant forall id :: Matches(tables, identityID, selected, id) && id !in rest && id !in rows ==>
          |rows| == 2 && TextLess(rows[1], id)
        decreases |rest|
      {
        var id :| id in rest;
        rest := rest - {id};
        if Matches(tables, identityID, selected, id) {
          rows := FirstTwo(rows, id);
        }
      }
    }

    /** Issue, for a fresh token ID. */
    method Issue(id: string, proof: Proof, sel: Selectors, defaultWorkspace: string)
      returns (issued: bool, ghost identityID: string, ghost rows: seq<string>)
      requires id !in tables.tokens && BoundedIdentity(id) && "" !in tables.identities
      modifies this`tables
      ensures Can(old(View()), Step.Issue(id, proof, sel, defaultWorkspace, identityID, rows))
      ensures View() == Next(old(View()), Step.Issue(id, proof, sel, defaultWorkspace, identityID, rows))
      ensures issued == Issued(old(View()), proof, sel, defaultWorkspace, identityID, rows).Some?
    {
      hide Looks, LockCurrent, Lifetime, GrantLineage;
      var identity := FindIdentity(proof);
      identityID := identity;
      var selected := SelectedWorkspace(sel, defaultWorkspace);
      var found := LookupGrants(identity, if selected.Some? then selected.value else "");
      rows := found;
      if !SelectorsOK(sel) || proof.ruleID == "" || proof.ruleRevision <= 0 || proof.subject == "" || identity == "" {
        return false, identityID, rows;
      }
      if sel.account != "" && (tables.identities[identity].kind != "service" || sel.account != tables.identities[identity].account) {
        return false, identityID, rows;
      }
      if selected.None? {
        return false, identityID, rows;
      }
      var matches, grant := CountMatches(tables, identity, selected.value, found);
      if matches != 1 {
        return false, identityID, rows;
      }
      var lineage := GrantLineage(tables, proof, identity, grant);
      var ws := tables.grants[grant].workspaceID;
      var locked := LockCurrent(tables, lineage, ws);
      var seconds := Lifetime(proof, now);
      if locked.None? || seconds <= 120 {
        return false, identityID, rows;
      }
      tables := tables.(tokens := tables.tokens[id := TokenRow(ws, lineage, now + seconds * SECOND, false)]);
      return true, identityID, rows;
    }

    /** Admission of a key. */
    method AuthenticateKey(id: string) returns (p: Option<Principal>)
      ensures p == AdmitKey(View(), id)
    {
      hide Valid, LockCurrent;
      if id !in keys || keys[id].revoked {
        return None;
      }
      var row := keys[id];
      var kind := "";
      if row.authority.Granted? {
        var locked := LockCurrent(tables, row.authority.lineage, row.workspaceID);
        if locked.None? {
          return None;
        }
        kind := locked.value;
      }
      if !Unexpired(row.expires, now) || row.workspaceID !in workspaces {
        return None;
      }
      var found := KeyPrincipal(id, row, kind);
      var ok := Validate(found);
      return if ok then Some(found) else None;
    }

    method AuthenticateToken(id: string) returns (p: Option<Principal>)
      ensures p == AdmitToken(View(), id)
    {
      hide Valid, LockCurrent;
      if id !in tables.tokens || tables.tokens[id].revoked || tables.tokens[id].expires <= now {
        return None;
      }
      var row := tables.tokens[id];
      var locked := LockCurrent(tables, row.lineage, row.workspaceID);
      if locked.None? || row.workspaceID !in workspaces {
        return None;
      }
      var found := TokenPrincipal(id, row, locked.value);
      var ok := Validate(found);
      return if ok then Some(found) else None;
    }

    /** CreateForPrincipal, for a fresh key ID. */
    method CreateForPrincipal(id: string, p: Principal, nameOK: bool) returns (created: bool)
      requires id !in keys && BoundedIdentity(id)
      modifies this`keys
      ensures View() == Next(old(View()), Create(id, p, nameOK))
      ensures created == Created(old(View()), p, nameOK).Some?
    {
      hide Authorize, LockCurrent, SameAuthority, SameOperations, Inherited;
      var may := MayCreateKeys(p);
      if !may || !nameOK {
        return false;
      }
      if p.authority.kind.IndependentKey? && !SameOperations(p.authority.operations, Registered()) {
        return false;
      }
      if p.authority.kind.IdentityGrant? &&
         (p.identity.None? || LockCurrent(tables, p.authority.lineage, p.workspaceID) != Some(p.identity.value.kind))
      {
        return false;
      }
      var issuer := IssuerSnapshot(Store(now, tables, keys, workspaces), p);
      if issuer.None? || !SameAuthority(issuer.value, p.authority) {
        return false;
      }
      if p.authority.kind.IndependentKey? {
        keys := keys[id := KeyRow(p.workspaceID, Independent, None, false)];
      } else {
        var effective := Effective(p.authority.operations);
        keys := keys[id := KeyRow(p.workspaceID, Granted(p.authority.lineage, effective, p.credential), None, false)];
      }
      return true;
    }
  }
}
