/**
 The authority tables and the policy import (internal/auth/policy.go): a document is
 validated against itself and against the rows, and then written one statement at a time.
 Rules, identities and grants are never deleted; every change of a row advances its revision.
 */
module Policies {
  import opened Options
  import opened Principals

  // ---------- tables ----------

  /** `config` stands for the audience and the security configuration. */
  datatype RuleRow = RuleRow(organization: string, issuer: string, config: string, enabled: bool, removed: bool, revision: int)

  datatype IdentityRow = IdentityRow(
    organization: string, issuer: string, subject: string, kind: string, account: string,
    enabled: bool, removed: bool, revision: int)

  datatype GrantRow = GrantRow(identityID: string, workspaceID: string, roleVersion: int, enabled: bool, revoked: bool, revision: int)

  /** `lineage` holds the rule, identity and grant a token was issued for, with their revisions. */
  datatype TokenRow = TokenRow(workspaceID: string, lineage: Lineage, expires: int, revoked: bool)

  datatype Tables = Tables(
    rules: map<string, RuleRow>, identities: map<string, IdentityRow>, grants: map<string, GrantRow>, tokens: map<string, TokenRow>)

  // ---------- documents ----------

  /** `wellFormed` is the verdict of the rule's own validation. */
  datatype RuleChange = RuleChange(
    id: string, organization: string, issuer: string, config: string, enabled: bool, revision: int, wellFormed: bool)

  /** `secureIssuer` says whether the issuer is an acceptable URL. */
  datatype IdentityChange = IdentityChange(
    id: string, organization: string, issuer: string, subject: string, kind: string, account: string, enabled: bool, secureIssuer: bool)

  datatype GrantChange = GrantChange(id: string, identityID: string, workspaceID: string, role: string, enabled: bool)

  datatype Document = Document(
    rules: seq<RuleChange>, identities: seq<IdentityChange>, grants: seq<GrantChange>,
    removeRules: seq<string>, removeIdentities: seq<string>, revokeGrants: seq<string>, revokeTokens: seq<(string, string)>)

  // ---------- what a document must be ----------

  function Size(d: Document): nat {
    |d.rules| + |d.identities| + |d.grants| + |d.removeRules| + |d.removeIdentities| + |d.revokeGrants| + |d.revokeTokens|
  }

  /** The IDs a document names of each kind, in the order they are checked. */
  function RuleIDs(d: Document): seq<string> { seq(|d.rules|, i requires 0 <= i < |d.rules| => d.rules[i].id) + d.removeRules }

  function IdentityIDs(d: Document): seq<string> {
    seq(|d.identities|, i requires 0 <= i < |d.identities| => d.identities[i].id) + d.removeIdentities
  }

  function GrantIDs(d: Document): seq<string> { seq(|d.grants|, i requires 0 <= i < |d.grants| => d.grants[i].id) + d.revokeGrants }

  function TokenIDs(d: Document): seq<string> { seq(|d.revokeTokens|, i requires 0 <= i < |d.revokeTokens| => d.revokeTokens[i].0) }

  ghost predicate Named(ids: seq<string>) { NoDuplicates(ids) && forall id :: id in ids ==> BoundedIdentity(id) }

  predicate GoodIdentity(i: IdentityChange) {
    && BoundedIdentity(i.organization) && BoundedIdentity(i.subject) && i.secureIssuer
    && (if i.kind == "human" then i.account == "" else i.kind == "service" && BoundedIdentity(i.account))
  }

  predicate GoodGrant(g: GrantChange) {
    BoundedIdentity(g.identityID) && BoundedIdentity(g.workspaceID) && g.role == "workspace_full_access"
  }

  predicate SameSubject(a: IdentityChange, b: IdentityChange) {
    a.organization == b.organization && a.issuer == b.issuer && a.subject == b.subject
  }

  predicate SameScope(a: GrantChange, b: GrantChange) { a.identityID == b.identityID && a.workspaceID == b.workspaceID }

  /** Each ID once per kind, each subject once, and at most one enabled grant for an identity in a workspace. */
  ghost predicate ValidDocument(d: Document) {
    && Size(d) <= 1000
    && Named(RuleIDs(d)) && Named(IdentityIDs(d)) && Named(GrantIDs(d)) && Named(TokenIDs(d))
    && (forall r :: r in d.rules ==> r.revision == 0 && r.wellFormed)
    && (forall i :: i in d.identities ==> GoodIdentity(i))
    && (forall j, k :: 0 <= j < k < |d.identities| ==> !SameSubject(d.identities[j], d.identities[k]))
    && (forall g :: g in d.grants ==> GoodGrant(g))
    && (forall j, k :: 0 <= j < k < |d.grants| && d.grants[j].enabled && d.grants[k].enabled ==> !SameScope(d.grants[j], d.grants[k]))
    && (forall t :: t in d.revokeTokens ==> BoundedIdentity(t.1))
  }

  // ---------- what the rows must allow ----------

  predicate Active(g: GrantRow) { g.enabled && !g.revoked }

  ghost predicate Retiring(d: Document, id: string) {
    id in d.revokeGrants || exists g :: g in d.grants && !g.enabled && g.id == id
  }

  predicate HasSubject(row: IdentityRow, i: IdentityChange) {
    row.organization == i.organization && row.issuer == i.issuer && row.subject == i.subject
  }

  predicate IdentityFits(tables: Tables, i: IdentityChange) {
    && (i.id in tables.identities ==>
          var row := tables.identities[i.id];
          HasSubject(row, i) && row.kind == i.kind && row.account == i.account)
    && (forall id :: id in tables.identities && HasSubject(tables.identities[id], i) ==> id == i.id)
  }

  predicate InScope(row: GrantRow, g: GrantChange) { row.identityID == g.identityID && row.workspaceID == g.workspaceID }

  ghost predicate GrantFits(tables: Tables, workspaces: set<string>, d: Document, g: GrantChange) {
    && g.workspaceID in workspaces
    && ((exists i :: i in d.identities && i.id == g.identityID) ||
        (g.identityID in tables.identities && !tables.identities[g.identityID].removed))
    && (g.enabled ==>
          forall id :: id in tables.grants && id != g.id && Active(tables.grants[id]) && InScope(tables.grants[id], g) ==> Retiring(d, id))
    && (g.id in tables.grants ==> InScope(tables.grants[g.id], g) && !tables.grants[g.id].revoked)
  }

  ghost predicate ReferencesOK(tables: Tables, workspaces: set<string>, d: Document) {
    && (forall i :: i in d.identities ==> IdentityFits(tables, i))
    && (forall g :: g in d.grants ==> GrantFits(tables, workspaces, d, g))
    && (forall id :: id in d.removeRules ==> id in tables.rules)
    && (forall id :: id in d.removeIdentities ==> id in tables.identities)
    && (forall id :: id in d.revokeGrants ==> id in tables.grants)
    && (forall t :: t in d.revokeTokens ==> t.0 in tables.tokens && tables.tokens[t.0].workspaceID == t.1)
  }

  // ---------- writes ----------

  datatype Write =
    | PutRule(rule: RuleChange)
    | RemoveRule(id: string)
    | PutIdentity(identity: IdentityChange)
    | RemoveIdentity(id: string)
    | RevokeGrant(id: string)
    | PutGrant(grant: GrantChange)
    | RevokeToken(id: string, workspaceID: string)

  datatype Change = Change(kind: string, id: string, revision: int)

  function PutRuleRow(rows: map<string, RuleRow>, r: RuleChange): (map<string, RuleRow>, Option<Change>) {
    if r.id !in rows then
      (rows[r.id := RuleRow(r.organization, r.issuer, r.config, r.enabled, false, 1)], Some(Change("federation_rule", r.id, 1)))
    else
      var row := rows[r.id];
      if row == row.(organization := r.organization, issuer := r.issuer, config := r.config, enabled := r.enabled, removed := false)
      then (rows, None)
      else
        (rows[r.id := RuleRow(r.organization, r.issuer, r.config, r.enabled, false, row.revision + 1)],
         Some(Change("federation_rule", r.id, row.revision + 1)))
  }

  function RemoveRuleRow(rows: map<string, RuleRow>, id: string): (map<string, RuleRow>, Option<Change>) {
    if id !in rows || rows[id].removed then (rows, None)
    else
      (rows[id := rows[id].(enabled := false, removed := true, revision := rows[id].revision + 1)],
       Some(Change("federation_rule", id, rows[id].revision + 1)))
  }

  function PutIdentityRow(rows: map<string, IdentityRow>, i: IdentityChange): (map<string, IdentityRow>, Option<Change>) {
    if i.id !in rows then
      (rows[i.id := IdentityRow(i.organization, i.issuer, i.subject, i.kind, i.account, i.enabled, false, 1)],
       Some(Change("identity", i.id, 1)))
    else
      var row := rows[i.id];
      if row.enabled == i.enabled && !row.removed then (rows, None)
      else
        (rows[i.id := row.(enabled := i.enabled, removed := false, revision := row.revision + 1)],
         Some(Change("identity", i.id, row.revision + 1)))
  }

  function RemoveIdentityRow(rows: map<string, IdentityRow>, id: string): (map<string, IdentityRow>, Option<Change>) {
    if id !in rows || rows[id].removed then (rows, None)
    else
      (rows[id := rows[id].(enabled := false, removed := true, revision := rows[id].revision + 1)],
       Some(Change("identity", id, rows[id].revision + 1)))
  }

  function RevokeGrantRow(rows: map<string, GrantRow>, id: string): (map<string, GrantRow>, Option<Change>) {
    if id !in rows || rows[id].revoked then (rows, None)
    else
      (rows[id := rows[id].(enabled := false, revoked := true, revision := rows[id].revision + 1)],
       Some(Change("workspace_grant", id, rows[id].revision + 1)))
  }

  function PutGrantRow(rows: map<string, GrantRow>, g: GrantChange): (map<string, GrantRow>, Option<Change>) {
    if g.id !in rows then
      (rows[g.id := GrantRow(g.identityID, g.workspaceID, POLICY_VERSION, g.enabled, false, 1)],
       Some(Change("workspace_grant", g.id, 1)))
    else
      var row := rows[g.id];
      if row.roleVersion == POLICY_VERSION && row.enabled == g.enabled then (rows, None)
      else
        (rows[g.id := row.(roleVersion := POLICY_VERSION, enabled := g.enabled, revision := row.revision + 1)],
         Some(Change("workspace_grant", g.id, row.revision + 1)))
  }

  function RevokeTokenRow(rows: map<string, TokenRow>, id: string, ws: string): (map<string, TokenRow>, Option<Change>) {
    if id !in rows || rows[id].workspaceID != ws || rows[id].revoked then (rows, None)
    else (rows[id := rows[id].(revoked := true)], Some(Change("access_token", id, 0)))
  }

  /** One statement of the import, with the change it returns, if it touched a row. */
  function Execute(tables: Tables, w: Write): (Tables, Option<Change>) {
    match w
    case PutRule(r) => var (rows, change) := PutRuleRow(tables.rules, r); (tables.(rules := rows), change)
    case RemoveRule(id) => var (rows, change) := RemoveRuleRow(tables.rules, id); (tables.(rules := rows), change)
    case PutIdentity(i) => var (rows, change) := PutIdentityRow(tables.identities, i); (tables.(identities := rows), change)
    case RemoveIdentity(id) => var (rows, change) := RemoveIdentityRow(tables.identities, id); (tables.(identities := rows), change)
    case RevokeGrant(id) => var (rows, change) := RevokeGrantRow(tables.grants, id); (tables.(grants := rows), change)
    case PutGrant(g) => var (rows, change) := PutGrantRow(tables.grants, g); (tables.(grants := rows), change)
    case RevokeToken(id, ws) => var (rows, change) := RevokeTokenRow(tables.tokens, id, ws); (tables.(tokens := rows), change)
  }

  function Written(tables: Tables, writes: seq<Write>): Tables {
    if writes == [] then tables else Execute(Written(tables, writes[..|writes| - 1]), writes[|writes| - 1]).0
  }

  function Changes(tables: Tables, writes: seq<Write>): seq<Change> {
    if writes == [] then []
    else
      var front := writes[..|writes| - 1];
      var change := Execute(Written(tables, front), writes[|writes| - 1]).1;
      Changes(tables, front) + if change.Some? then [change.value] else []
  }

  // ---------- the plan of an import ----------

  /** Which writes a document asks for. */
  ghost predicate Asks(d: Document, w: Write) {
    match w
    case PutRule(r) => r in d.rules
    case RemoveRule(id) => id in d.removeRules
    case PutIdentity(i) => i in d.identities
    case RemoveIdentity(id) => id in d.removeIdentities
    case RevokeGrant(id) => id in d.revokeGrants
    case PutGrant(g) => g in d.grants
    case RevokeToken(id, ws) => (id, ws) in d.revokeTokens
  }

  /** Grants are enabled last, after every revocation and every disabled grant. */
  predicate Enables(w: Write) { w.PutGrant? && w.grant.enabled }

  /** An order of the document's writes, each once, in which nothing is enabled before the last grant is retired. */
  ghost predicate Plans(d: Document, writes: seq<Write>) {
    && NoDuplicates(writes)
    && (forall w :: w in writes <==> Asks(d, w))
    && (forall i, j :: 0 <= i < j < |writes| && Enables(writes[i]) && (writes[j].PutGrant? || writes[j].RevokeGrant?) ==> Enables(writes[j]))
  }
}
