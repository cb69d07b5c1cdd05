/**
 Admission of credentials, token issue and key issuance (internal/auth/authority_resolver.go,
 key_issuance.go) over the authority tables. Each transaction is one step; a credential is
 looked up by its row, the digest that finds it being unique.
 */
module Issuance {
  import opened Options
  import opened TextOrder
  import opened Principals
  import opened Policies

  const SECOND: int := 1_000_000_000

  /** A key's authority: its own, or a lineage with a ceiling of operations and the credential that issued it. */
  datatype KeyAuthority = Independent | Granted(lineage: Lineage, operations: seq<Operation>, parent: Credential)

  datatype KeyRow = KeyRow(workspaceID: string, authority: KeyAuthority, expires: Option<int>, revoked: bool)

  datatype Store = Store(now: int, tables: Tables, keys: map<string, KeyRow>, workspaces: set<string>)

  // ---------- the locked authority ----------

  /** The row lock: what the current rows say, if the rule, identity and grant are all in force together. */
  predicate InForce(t: Tables, l: Lineage, ws: string) {
    && l.ruleID in t.rules && t.rules[l.ruleID].enabled && !t.rules[l.ruleID].removed
    && l.identityID in t.identities && t.identities[l.identityID].enabled && !t.identities[l.identityID].removed
    && t.identities[l.identityID].organization == t.rules[l.ruleID].organization
    && t.identities[l.identityID].issuer == t.rules[l.ruleID].issuer
    && l.grantID in t.grants && t.grants[l.grantID].workspaceID == ws && Active(t.grants[l.grantID])
    && t.grants[l.grantID].identityID == l.identityID
  }

  /** The stamped revisions are the rows' own. */
  predicate Stamped(t: Tables, l: Lineage)
    requires l.ruleID in t.rules && l.identityID in t.identities && l.grantID in t.grants
  {
    && t.rules[l.ruleID].revision == l.ruleRevision
    && t.identities[l.identityID].revision == l.identityRevision
    && t.grants[l.grantID].revision == l.grantRevision
    && t.grants[l.grantID].roleVersion == l.policyVersion && l.policyVersion == POLICY_VERSION
  }

  /** lockCurrentAuthority: the identity's kind, if the stamped authority is the current one. */
  function LockCurrent(t: Tables, l: Lineage, ws: string): Option<string> {
    if InForce(t, l, ws) && Stamped(t, l) then Some(t.identities[l.identityID].kind) else None
  }

  // ---------- admission ----------

  predicate Unexpired(expires: Option<int>, now: int) { expires.None? || expires.value > now }

  /** readKeySnapshot and readTokenSnapshot. */
  function KeySnapshot(id: string, row: KeyRow): Authority {
    match row.authority
    case Independent => IndependentKeyPrincipal(row.workspaceID, id).authority
    case Granted(lineage, operations, _) => Authority(IdentityGrant, lineage, operations, WorkspaceScope(row.workspaceID))
  }

  function TokenSnapshot(row: TokenRow): Authority {
    Authority(IdentityGrant, row.lineage, Registered(), WorkspaceScope(row.workspaceID))
  }

  /** The principal a key stands for, before it is validated. */
  function KeyPrincipal(id: string, row: KeyRow, kind: string): Principal {
    match row.authority
    case Independent => IndependentKeyPrincipal(row.workspaceID, id)
    case Granted(lineage, _, _) =>
      Principal(row.workspaceID, id, Some(Identity(lineage.identityID, kind)), Credential(id, APIKey), KeySnapshot(id, row))
  }

  function TokenPrincipal(id: string, row: TokenRow, kind: string): Principal {
    Principal(row.workspaceID, "", Some(Identity(row.lineage.identityID, kind)), Credential(id, AccessToken), TokenSnapshot(row))
  }

  predicate KeyUsable(s: Store, id: string) {
    && id in s.keys && !s.keys[id].revoked && Unexpired(s.keys[id].expires, s.now) && s.keys[id].workspaceID in s.workspaces
    && (s.keys[id].authority.Granted? ==> LockCurrent(s.tables, s.keys[id].authority.lineage, s.keys[id].workspaceID).Some?)
  }

  predicate TokenUsable(s: Store, id: string) {
    && id in s.tables.tokens && !s.tables.tokens[id].revoked && s.tables.tokens[id].expires > s.now
    && s.tables.tokens[id].workspaceID in s.workspaces
    && LockCurrent(s.tables, s.tables.tokens[id].lineage, s.tables.tokens[id].workspaceID).Some?
  }

  function KindOf(t: Tables, l: Lineage, ws: string): string {
    var kind := LockCurrent(t, l, ws);
    if kind.Some? then kind.value else ""
  }

  ghost function AdmitKey(s: Store, id: string): Option<Principal> {
    if !KeyUsable(s, id) then None
    else
      var row := s.keys[id];
      var p := KeyPrincipal(id, row, if row.authority.Granted? then KindOf(s.tables, row.authority.lineage, row.workspaceID) else "");
      if Valid(p) then Some(p) else None
  }

  ghost function AdmitToken(s: Store, id: string): Option<Principal> {
    if !TokenUsable(s, id) then None
    else
      var row := s.tables.tokens[id];
      var p := TokenPrincipal(id, row, KindOf(s.tables, row.lineage, row.workspaceID));
      if Valid(p) then Some(p) else None
  }

  // ---------- token issue ----------

  datatype Proof = Proof(ruleID: string, ruleRevision: int, issuer: string, subject: string, expires: int)

  datatype Selectors = Selectors(workspaceID: string, account: string)

  /** The identity the proof's subject names under the rule's organization and issuer. */
  predicate Proves(t: Tables, proof: Proof, id: string) {
    && proof.ruleID in t.rules && id in t.identities
    && t.identities[id].organization == t.rules[proof.ruleID].organization
    && t.identities[id].issuer == t.rules[proof.ruleID].issuer == proof.issuer
    && t.identities[id].subject == proof.subject && t.identities[id].enabled && !t.identities[id].removed
  }

  predicate Matches(t: Tables, identityID: string, selected: string, id: string) {
    id in t.grants && Active(t.grants[id]) && t.grants[id].identityID == identityID &&
    (selected == "" || t.grants[id].workspaceID == selected)
  }

  /** The first two grants that match, in the order of their IDs: all of them, or two that come before the others. */
  ghost predicate Looks(t: Tables, identityID: string, selected: string, rows: seq<string>) {
    && |rows| <= 2 && (|rows| == 2 ==> TextLess(rows[0], rows[1]))
    && (forall id :: id in rows ==> Matches(t, identityID, selected, id))
    && (forall id :: Matches(t, identityID, selected, id) && id !in rows ==> |rows| == 2 && TextLess(rows[1], id))
  }

  /** Exactly one grant matches, this one. */
  ghost predicate OnlyMatch(t: Tables, identityID: string, selected: string, found: string) {
    Matches(t, identityID, selected, found) && forall other :: Matches(t, identityID, selected, other) ==> other == found
  }

  /** Issue's loop over the rows found: how many match, and the last that does. One row found means one grant there is. */
  method CountMatches(t: Tables, identityID: string, selected: string, rows: seq<string>) returns (matches: nat, found: string)
    requires Looks(t, identityID, selected, rows)
    ensures matches == |rows|
    ensures matches == 1 ==> rows == [found] && OnlyMatch(t, identityID, selected, found)
    ensures matches != 1 ==> forall id :: !OnlyMatch(t, identityID, selected, id)
  {
    matches, found := 0, "";
    for i := 0 to |rows|
      invariant matches == i
      invariant i > 0 ==> found == rows[i - 1]
    {
      assert rows[i] in rows;
      if selected == "" || selected == t.grants[rows[i]].workspaceID {
        matches, found := matches + 1, rows[i];
      }
    }
    if |rows| == 2 {
      TextLessTotal(rows[0], rows[1]);
      assert rows[0] in rows && rows[1] in rows && rows[0] != rows[1];
    }
  }

  function SelectedWorkspace(sel: Selectors, defaultWorkspace: string): Option<string> {
    if sel.workspaceID != "default" then Some(sel.workspaceID)
    else if defaultWorkspace == "" then None else Some(defaultWorkspace)
  }

  /** Seconds of a token's life: at most ten minutes and at most what is left of the proof. */
  function Lifetime(proof: Proof, now: int): int {
    var left := if proof.expires >= now then (proof.expires - now) / SECOND else -((now - proof.expires) / SECOND);
    if left > 600 then 600 else left
  }

  function GrantLineage(t: Tables, proof: Proof, identityID: string, grantID: string): Lineage
    requires identityID in t.identities && grantID in t.grants
  {
    Lineage(proof.ruleID, identityID, grantID, proof.ruleRevision, t.identities[identityID].revision,
            t.grants[grantID].revision, t.grants[grantID].roleVersion)
  }

  predicate SelectorsOK(sel: Selectors) {
    (sel.workspaceID == "" || BoundedIdentity(sel.workspaceID)) && (sel.account == "" || BoundedIdentity(sel.account))
  }

  /** Issue: the token row, if the proof is good for exactly one grant whose authority is current. */
  ghost function Issued(s: Store, proof: Proof, sel: Selectors, defaultWorkspace: string, identityID: string, rows: seq<string>)
    : Option<TokenRow>
    requires identityID != "" ==> Proves(s.tables, proof, identityID)
    requires SelectedWorkspace(sel, defaultWorkspace).Some? ==>
      Looks(s.tables, identityID, SelectedWorkspace(sel, defaultWorkspace).value, rows)
  {
    var t := s.tables;
    if !SelectorsOK(sel) || proof.ruleID == "" || proof.ruleRevision <= 0 || proof.subject == "" || identityID == "" then None
    else if sel.account != "" && (t.identities[identityID].kind != "service" || sel.account != t.identities[identityID].account) then None
    else if SelectedWorkspace(sel, defaultWorkspace).None? || |rows| != 1 then None
    else
      var ws := SelectedWorkspace(sel, defaultWorkspace).value;
      assert rows[0] in rows && Matches(t, identityID, ws, rows[0]);
      var lineage := GrantLineage(t, proof, identityID, rows[0]);
      var scope := t.grants[rows[0]].workspaceID;
      if LockCurrent(t, lineage, scope).None? || Lifetime(proof, s.now) <= 120 then None
      else Some(TokenRow(scope, lineage, s.now + Lifetime(proof, s.now) * SECOND, false))
  }

  // ---------- key issuance ----------

  /** The authority of the credential a principal was admitted by, read again. */
  function IssuerSnapshot(s: Store, p: Principal): Option<Authority> {
    if p.credential.kind.AccessToken? then
      if p.credential.id in s.tables.tokens && s.tables.tokens[p.credential.id].workspaceID == p.workspaceID &&
         !s.tables.tokens[p.credential.id].revoked && s.tables.tokens[p.credential.id].expires > s.now
      then Some(TokenSnapshot(s.tables.tokens[p.credential.id])) else None
    else
      if p.credential.id in s.keys && s.keys[p.credential.id].workspaceID == p.workspaceID &&
         !s.keys[p.credential.id].revoked && Unexpired(s.keys[p.credential.id].expires, s.now)
      then Some(KeySnapshot(p.credential.id, s.keys[p.credential.id])) else None
  }

  predicate SameAuthority(issuer: Authority, p: Authority) {
    issuer.kind == p.kind && issuer.lineage == p.lineage && SameOperations(issuer.operations, p.operations)
  }

  /** CreateForPrincipal: the new key's row, for a name that is acceptable. */
  ghost function Created(s: Store, p: Principal, nameOK: bool): Option<KeyRow> {
    if Authorize(p, API_KEYS_CREATE, WorkspaceScope(p.workspaceID)).Some? || !nameOK then None
    else if p.authority.kind.IndependentKey? && !SameOperations(p.authority.operations, Registered()) then None
    else if p.authority.kind.IdentityGrant? &&
            (p.identity.None? || LockCurrent(s.tables, p.authority.lineage, p.workspaceID) != Some(p.identity.value.kind)) then None
    else if IssuerSnapshot(s, p).None? || !SameAuthority(IssuerSnapshot(s, p).value, p.authority) then None
    else if p.authority.kind.IndependentKey? then Some(KeyRow(p.workspaceID, Independent, None, false))
    else Some(KeyRow(p.workspaceID, Granted(p.authority.lineage, Inherited(p.authority.operations), p.credential), None, false))
  }
}
