/**
 Principals and the operations they may perform (internal/auth/principal.go, operations.go,
 key_issuance.go). An operation is its position in the registry; client.connect, which no
 role carries, is not registered.
 */
module Principals {
  import opened Options

  type Operation = nat

  const REGISTERED_COUNT: nat := 113
  const API_KEYS_CREATE: Operation := 6
  const CLIENT_CONNECT: Operation := 113
  const POLICY_VERSION: int := 1

  /** RegisteredOperations, which is also what the one role, workspace_full_access, means. */
  function Registered(): (ops: seq<Operation>)
    ensures |ops| == REGISTERED_COUNT && forall i :: 0 <= i < |ops| ==> ops[i] == i
  {
    seq(REGISTERED_COUNT, (i: nat) => i)
  }

  predicate IsRegistered(op: Operation) { op < REGISTERED_COUNT }

  datatype CredentialKind = APIKey | AccessToken | ConnectionKey
  datatype AuthorityKind = IndependentKey | IdentityGrant | InstanceConnection

  datatype Scope = Scope(workspaceID: string, kind: string, id: string)

  /** The rule, identity and grant an authority comes from, with the revisions that were checked. */
  datatype Lineage = Lineage(
    ruleID: string, identityID: string, grantID: string, ruleRevision: int, identityRevision: int, grantRevision: int,
    policyVersion: int)

  const NO_LINEAGE: Lineage := Lineage("", "", "", 0, 0, 0, POLICY_VERSION)

  datatype Authority = Authority(kind: AuthorityKind, lineage: Lineage, operations: seq<Operation>, scope: Scope)

  datatype Credential = Credential(id: string, kind: CredentialKind)

  datatype Identity = Identity(id: string, kind: string)

  datatype Principal = Principal(
    workspaceID: string, apiKeyID: string, identity: Option<Identity>, credential: Credential, authority: Authority)

  datatype Denial = Invalid | Forbidden | Rejected

  predicate BoundedIdentity(value: string) {
    value != "" && |value| <= 128 && '\0' !in value && '\r' !in value && '\n' !in value
  }

  function WorkspaceScope(ws: string): Scope { Scope(ws, "workspace", "") }

  function IndependentKeyPrincipal(ws: string, keyID: string): Principal {
    Principal(ws, keyID, None, Credential(keyID, APIKey), Authority(IndependentKey, NO_LINEAGE, Registered(), WorkspaceScope(ws)))
  }

  function ConnectionKeyPrincipal(ws: string, instanceID: string, credentialID: string): Principal {
    Principal(ws, "", None, Credential(credentialID, ConnectionKey),
              Authority(InstanceConnection, NO_LINEAGE, [CLIENT_CONNECT], Scope(ws, "instance", instanceID)))
  }

  // ---------- validity ----------

  ghost predicate NoDuplicates<T(!new)>(s: seq<T>) { forall i, j :: 0 <= i < j < |s| ==> s[i] != s[j] }

  ghost predicate ValidOperations(ops: seq<Operation>) {
    0 < |ops| <= REGISTERED_COUNT && NoDuplicates(ops) && forall op :: op in ops ==> IsRegistered(op)
  }

  predicate LineageAbsent(l: Lineage) {
    l.ruleID == "" && l.identityID == "" && l.grantID == "" && l.ruleRevision == 0 && l.identityRevision == 0 && l.grantRevision == 0
  }

  predicate LineagePresent(p: Principal) {
    var l := p.authority.lineage;
    && p.identity.Some? && BoundedIdentity(p.identity.value.id) && p.identity.value.kind in {"human", "service"}
    && l.identityID == p.identity.value.id && BoundedIdentity(l.ruleID) && BoundedIdentity(l.grantID)
    && l.ruleRevision > 0 && l.identityRevision > 0 && l.grantRevision > 0
  }

  predicate Bounded(p: Principal) {
    && BoundedIdentity(p.workspaceID) && BoundedIdentity(p.credential.id)
    && p.authority.scope.workspaceID == p.workspaceID && p.authority.lineage.policyVersion == POLICY_VERSION
  }

  predicate ValidConnection(p: Principal) {
    && p.apiKeyID == "" && p.identity.None? && p.authority.kind.InstanceConnection?
    && p.authority.scope.kind == "instance" && BoundedIdentity(p.authority.scope.id)
    && LineageAbsent(p.authority.lineage) && p.authority.operations == [CLIENT_CONNECT]
  }

  predicate ValidCredential(p: Principal) {
    match p.credential.kind
    case APIKey => p.apiKeyID == p.credential.id
    case AccessToken => p.apiKeyID == "" && p.authority.kind.IdentityGrant?
    case ConnectionKey => false
  }

  predicate ValidAuthority(p: Principal) {
    match p.authority.kind
    case IndependentKey => p.credential.kind.APIKey? && p.identity.None? && LineageAbsent(p.authority.lineage)
    case IdentityGrant => LineagePresent(p)
    case InstanceConnection => false
  }

  /** What a principal must be: one of three complete shapes, and nothing in between. */
  ghost predicate Valid(p: Principal) {
    && Bounded(p)
    && (if p.credential.kind.ConnectionKey? then ValidConnection(p)
        else
          && p.authority.scope.kind == "workspace" && p.authority.scope.id == ""
          && ValidCredential(p) && ValidAuthority(p) && ValidOperations(p.authority.operations))
  }

  /** The operations of Validate's last loop: registered, and none twice. */
  method CheckOperations(ops: seq<Operation>) returns (ok: bool)
    ensures ok == ValidOperations(ops)
  {
    if |ops| == 0 || |ops| > REGISTERED_COUNT {
      return false;
    }
    var seen: set<Operation> := {};
    for i := 0 to |ops|
      invariant seen == set op | op in ops[..i]
      invariant NoDuplicates(ops[..i]) && forall op :: op in ops[..i] ==> IsRegistered(op)
    {
      if !IsRegistered(ops[i]) || ops[i] in seen {
        assert ops[i] in ops;
        return false;
      }
      seen := seen + {ops[i]};
      assert ops[..i + 1] == ops[..i] + [ops[i]];
    }
    assert ops[..|ops|] == ops;
    return true;
  }

  method Validate(p: Principal) returns (ok: bool)
    ensures ok == Valid(p)
  {
    if !Bounded(p) {
      return false;
    }
    if p.credential.kind.ConnectionKey? {
      return ValidConnection(p);
    }
    if p.authority.scope.kind != "workspace" || p.authority.scope.id != "" || !ValidCredential(p) || !ValidAuthority(p) {
      return false;
    }
    ok := CheckOperations(p.authority.operations);
  }

  // ---------- the gate ----------

  const RESOURCE_KINDS: set<string> := {
    "session", "thread", "session_resource", "agent", "agent_version", "environment", "vault", "credential", "file",
    "memory_store", "memory", "memory_version", "skill", "skill_version", "model", "api_key", "drive", "drive_version"
  }

  predicate ValidResource(r: Scope) {
    BoundedIdentity(r.workspaceID) && (if r.kind == "workspace" then r.id == "" else r.kind in RESOURCE_KINDS && BoundedIdentity(r.id))
  }

  /** Authorize: None is permission. */
  ghost function Authorize(p: Principal, op: Operation, resource: Scope): (denial: Option<Denial>)
    ensures denial.None? ==> Valid(p) && !p.credential.kind.ConnectionKey? && op in p.authority.operations
  {
    if !Valid(p) then Some(Invalid)
    else if p.credential.kind.ConnectionKey? then Some(Invalid)
    else if !IsRegistered(op) || op !in p.authority.operations || resource.workspaceID != p.authority.scope.workspaceID ||
            !ValidResource(resource)
    then Some(Forbidden)
    else None
  }

  /** A connection key performs no public operation. */
  lemma ConnectionKeyMayNothing(p: Principal, op: Operation, resource: Scope)
    requires p.credential.kind.ConnectionKey?
    ensures Authorize(p, op, resource).Some?
  {
  }

  /** Though the principal of a connection key is valid. */
  lemma ConnectionKeyIsValid(ws: string, instanceID: string, credentialID: string)
    requires BoundedIdentity(ws) && BoundedIdentity(instanceID) && BoundedIdentity(credentialID)
    ensures Valid(ConnectionKeyPrincipal(ws, instanceID, credentialID))
  {
  }

  lemma IndependentIsValid(ws: string, keyID: string)
    requires BoundedIdentity(ws) && BoundedIdentity(keyID)
    ensures Valid(IndependentKeyPrincipal(ws, keyID))
  {
  }

  // ---------- comparing operation lists ----------

  /** sameOperations. */
  predicate SameOperations(a: seq<Operation>, b: seq<Operation>) {
    |a| == |b| && forall op :: op in a ==> op in b
  }

  ghost function Elements<T>(s: seq<T>): set<T> { set x | x in s }

  lemma {:induction false} DistinctCount<T>(s: seq<T>)
    requires forall i, j :: 0 <= i < j < |s| ==> s[i] != s[j]
    ensures |Elements(s)| == |s|
  {
    if s != [] {
      var front, last := s[..|s| - 1], s[|s| - 1];
      DistinctCount(front);
      assert s == front + [last];
      assert Elements(s) == Elements(front) + {last};
    } else {
      assert Elements(s) == {};
    }
  }

  lemma {:induction false} CountAtMost<T>(s: seq<T>)
    ensures |Elements(s)| <= |s|
  {
    if s != [] {
      var front, last := s[..|s| - 1], s[|s| - 1];
      CountAtMost(front);
      assert s == front + [last];
      assert Elements(s) == Elements(front) + {last};
    } else {
      assert Elements(s) == {};
    }
  }

  lemma SameSize<T>(a: set<T>, b: set<T>)
    requires a <= b && |a| >= |b|
    ensures a == b
  {
    assert b == a + (b - a);
  }

  /** When the first list repeats nothing, the comparison holds exactly when both list the same operations, once each. */
  lemma SameOperationsExactly(a: seq<Operation>, b: seq<Operation>)
    requires NoDuplicates(a)
    ensures SameOperations(a, b) <==> |a| == |b| && Elements(a) == Elements(b)
    ensures SameOperations(a, b) ==> (forall op :: op in b ==> op in a) && |Elements(b)| == |b|
  {
    DistinctCount(a);
    CountAtMost(b);
    Subset(a, b);
    if SameOperations(a, b) {
      SameSize(Elements(a), Elements(b));
      Subset(b, a);
    }
  }

  lemma Subset<T(!new)>(a: seq<T>, b: seq<T>)
    ensures Elements(a) <= Elements(b) <==> forall x :: x in a ==> x in b
  {
    if Elements(a) <= Elements(b) {
      forall x | x in a
        ensures x in b
      {
        assert x in Elements(a);
      }
    }
  }

  /** With a repetition in the first list the comparison accepts a second list with an operation the first lacks. */
  lemma SameOperationsMisleads()
    ensures SameOperations([0, 0], [0, 1]) && 1 in [0, 1] && 1 !in [0, 0]
  {
    assert forall op :: op in [0, 0] ==> op == 0;
  }

  /** Any first list that repeats an operation misleads: some list of that length passes and holds an operation it lacks. */
  lemma RepetitionMisleads(a: seq<Operation>, i: nat, j: nat) returns (b: seq<Operation>, extra: Operation)
    requires i < j < |a| && a[i] == a[j]
    ensures SameOperations(a, b) && extra in b && extra !in a
  {
    extra := Above(a);
    b := a[j := extra];
    assert b[j] == extra;
    forall op | op in a
      ensures op in b
    {
      var k :| 0 <= k < |a| && a[k] == op;
      assert if k == j then b[i] == op else b[k] == op;
    }
  }

  /** Every list that passes the comparison with this one lists the same operations. */
  ghost predicate Decides(a: seq<Operation>) { forall b: seq<Operation> :: SameOperations(a, b) ==> Elements(a) == Elements(b) }

  /** The comparison decides sameness exactly when its first list repeats nothing. */
  lemma DecidesExactlyWithoutRepetition(a: seq<Operation>)
    ensures Decides(a) <==> NoDuplicates(a)
  {
    if NoDuplicates(a) {
      forall b: seq<Operation> | SameOperations(a, b)
        ensures Elements(a) == Elements(b)
      {
        SameOperationsExactly(a, b);
      }
    } else {
      var i, j :| 0 <= i < j < |a| && a[i] == a[j];
      var b, extra := RepetitionMisleads(a, i, j);
      assert extra in Elements(b) && extra !in Elements(a);
    }
  }

  /** An operation above all of the list. */
  function Above(a: seq<Operation>): (op: Operation)
    ensures op !in a && forall x :: x in a ==> x < op
  {
    if a == [] then 0
    else
      var rest := Above(a[1..]);
      assert a == [a[0]] + a[1..];
      if a[0] < rest then rest else a[0] + 1
  }

  // ---------- what a child key may do ----------

  /** The registered operations the issuer has, in the order of the registry. */
  method Effective(issuer: seq<Operation>) returns (ops: seq<Operation>)
    ensures ops == Inherited(issuer)
    ensures NoDuplicates(ops) && forall op :: op in ops <==> op in issuer && IsRegistered(op)
  {
    ops := [];
    var current := Registered();
    for k := 0 to |current|
      invariant ops == InheritedBelow(issuer, k)
    {
      if current[k] in issuer {
        ops := ops + [current[k]];
      }
    }
    InheritedExactly(issuer, |current|);
  }

  function InheritedBelow(issuer: seq<Operation>, n: nat): seq<Operation> {
    if n == 0 then [] else InheritedBelow(issuer, n - 1) + if n - 1 in issuer then [n - 1] else []
  }

  function Inherited(issuer: seq<Operation>): seq<Operation> { InheritedBelow(issuer, |Registered()|) }

  lemma {:induction false} InheritedExactly(issuer: seq<Operation>, n: nat)
    ensures NoDuplicates(InheritedBelow(issuer, n))
    ensures forall op :: op in InheritedBelow(issuer, n) <==> op < n && op in issuer
  {
    if n > 0 {
      InheritedExactly(issuer, n - 1);
    }
  }

  /** A child of an issuer that may create keys may do something, and nothing its issuer may not. */
  lemma InheritedValid(issuer: seq<Operation>)
    requires API_KEYS_CREATE in issuer
    ensures ValidOperations(Inherited(issuer)) && API_KEYS_CREATE in Inherited(issuer)
    ensures forall op :: op in Inherited(issuer) ==> op in issuer
    ensures ValidOperations(issuer) ==> forall op :: op in issuer ==> op in Inherited(issuer)
  {
    InheritedExactly(issuer, |Registered()|);
    var ops := Inherited(issuer);
    DistinctCount(ops);
    AtMost(Elements(ops), REGISTERED_COUNT);
  }

  lemma {:induction false} AtMost(ops: set<Operation>, n: nat)
    requires forall op :: op in ops ==> op < n
    ensures |ops| <= n
  {
    if n > 0 {
      AtMost(ops - {n - 1}, n - 1);
      Smaller(ops, (ops - {n - 1}) + {n - 1});
    } else {
      assert ops == {};
    }
  }

  lemma Smaller<T>(a: set<T>, b: set<T>)
    requires a <= b
    ensures |a| <= |b|
  {
    assert b == a + (b - a);
  }
}
