/**
 Authority over whole runs: stale stamps are dead for good, and a chain of issued keys
 only ever loses operations.
 */
module Lineages {
  import opened Options
  import opened Principals
  import opened Policies
  import opened PolicyLaws
  import opened PolicyRevisions
  import opened Issuance
  import opened AuthorityRuns

  ghost predicate Run(states: seq<Store>, steps: seq<Step>) {
    && |states| == |steps| + 1
    && Inv(states[0])
    && (forall i :: 0 <= i < |steps| ==> Can(states[i], steps[i]))
    && (forall i :: 0 <= i < |steps| ==> states[i + 1] == Next(states[i], steps[i]))
  }

  /** An empty store, with which a run may begin. */
  lemma EmptyStoreInv(now: int)
    ensures Inv(Store(now, Tables(map[], map[], map[], map[]), map[], {}))
  {
  }

  lemma {:induction false} RunInv(states: seq<Store>, steps: seq<Step>, k: nat)
    requires Run(states, steps) && k < |states|
    ensures Inv(states[k])
  {
    hide Inv, Next, Can;
    if k > 0 {
      RunInv(states, steps, k - 1);
      StepKeeps(states[k - 1], steps[k - 1]);
    }
  }

  // ---------- revisions ----------

  lemma StepAdvances(s: Store, step: Step)
    requires Can(s, step)
    ensures Advances(s.tables, Next(s, step).tables)
  {
    if step.Import? {
      ImportAdvances(s.tables, step.writes);
    }
    hide ValidDocument, ReferencesOK, Plans, Written, Issued, Created;
  }

  /** Over a run rows stay, and a row that changes in any way gets a later revision. */
  lemma {:induction false} RevisionsAdvance(states: seq<Store>, steps: seq<Step>, i: nat, j: nat)
    requires Run(states, steps) && i <= j < |states|
    ensures Advances(states[i].tables, states[j].tables)
  {
    hide Inv, Next, Can;
    if i < j {
      RevisionsAdvance(states, steps, i, j - 1);
      StepAdvances(states[j - 1], steps[j - 1]);
      AdvancesTrans(states[i].tables, states[j - 1].tables, states[j].tables);
    }
  }

  /** The rule, identity or grant has moved on since the lineage was stamped. */
  ghost predicate Stale(t: Tables, l: Lineage) {
    || (l.ruleID in t.rules && l.ruleRevision < t.rules[l.ruleID].revision)
    || (l.identityID in t.identities && l.identityRevision < t.identities[l.identityID].revision)
    || (l.grantID in t.grants && l.grantRevision < t.grants[l.grantID].revision)
  }

  lemma StaleStays(a: Tables, b: Tables, l: Lineage)
    requires Stale(a, l) && Advances(a, b)
    ensures Stale(b, l)
  {
  }

  lemma StaleNotLocked(t: Tables, l: Lineage, ws: string)
    requires Stale(t, l)
    ensures LockCurrent(t, l, ws).None?
  {
  }

  /**
   Once a rule, identity or grant has advanced, no key or token stamped with the older revision
   is admitted, and no principal carrying that lineage issues a key, ever again: re-enabling
   the row only advances it further.
   */
  lemma StaleForEver(states: seq<Store>, steps: seq<Step>, i: nat, j: nat, l: Lineage)
    requires Run(states, steps) && i <= j < |states| && Stale(states[i].tables, l)
    ensures forall id :: id in states[j].keys && states[j].keys[id].authority.Granted? && states[j].keys[id].authority.lineage == l ==>
      AdmitKey(states[j], id).None?
    ensures forall id :: id in states[j].tables.tokens && states[j].tables.tokens[id].lineage == l ==> AdmitToken(states[j], id).None?
    ensures forall p: Principal, nameOK: bool :: p.authority.kind.IdentityGrant? && p.authority.lineage == l ==> Created(states[j], p, nameOK).None?
  {
    hide Inv, Next, Can;
    RevisionsAdvance(states, steps, i, j);
    StaleStays(states[i].tables, states[j].tables, l);
    forall ws
      ensures LockCurrent(states[j].tables, l, ws).None?
    {
      StaleNotLocked(states[j].tables, l, ws);
    }
    hide LockCurrent, Valid, Authorize;
  }

  /** Every change of a row makes what was stamped from it stale: there is no way back to an old revision. */
  lemma ChangedIsStale(a: Tables, b: Tables, l: Lineage, ws: string)
    requires Advances(a, b) && LockCurrent(a, l, ws).Some?
    requires b.rules[l.ruleID] != a.rules[l.ruleID] || b.identities[l.identityID] != a.identities[l.identityID] || b.grants[l.grantID] != a.grants[l.grantID]
    ensures Stale(b, l)
  {
  }

  /** Stored stamps were current when inserted and are never ahead of the rows. */
  lemma StampsNeverAhead(states: seq<Store>, steps: seq<Step>, k: nat)
    requires Run(states, steps) && k < |states|
    ensures forall id :: id in states[k].tables.tokens ==> NotAhead(states[k].tables, states[k].tables.tokens[id].lineage)
    ensures forall id :: id in states[k].keys && states[k].keys[id].authority.Granted? ==>
      NotAhead(states[k].tables, states[k].keys[id].authority.lineage)
  {
    RunInv(states, steps, k);
    var s := states[k];
    assert forall id :: id in s.tables.tokens ==> TokenOK(s.tables, id, s.tables.tokens[id]);
    assert forall id :: id in s.keys ==> KeyOK(s, id, s.keys[id]);
  }

  lemma StampedWhenInserted(states: seq<Store>, steps: seq<Step>, k: nat, id: string)
    requires Run(states, steps) && k < |steps|
    ensures id in states[k + 1].tables.tokens && id !in states[k].tables.tokens ==>
      var row := states[k + 1].tables.tokens[id];
      LockCurrent(states[k].tables, row.lineage, row.workspaceID).Some?
    ensures id in states[k + 1].keys && id !in states[k].keys && states[k + 1].keys[id].authority.Granted? ==>
      var row := states[k + 1].keys[id];
      LockCurrent(states[k].tables, row.authority.lineage, row.workspaceID).Some?
  {
    if steps[k].Import? {
      ImportTokens(states[k].tables, steps[k].writes);
    }
    hide ValidDocument, ReferencesOK, Plans, Written, Valid, InForce, Inv;
  }

  // ---------- chains of issued keys ----------

  /** Each key of the path was issued by the next. */
  ghost predicate Chain(keys: map<string, KeyRow>, path: seq<string>) {
    && path != []
    && (forall i :: 0 <= i < |path| ==> path[i] in keys && keys[path[i]].authority.Granted?)
    && (forall i :: 0 <= i < |path| - 1 ==> keys[path[i]].authority.parent == Credential(path[i + 1], APIKey))
  }

  /** Down a chain, from any ancestor: the same lineage and workspace, and no operation the ancestor lacks. */
  lemma {:induction false} ChainShrinks(s: Store, path: seq<string>, i: nat)
    requires Inv(s) && Chain(s.keys, path) && i < |path|
    ensures var child, ancestor := s.keys[path[0]], s.keys[path[i]];
            && child.authority.lineage == ancestor.authority.lineage && child.workspaceID == ancestor.workspaceID
            && forall op :: op in child.authority.operations ==> op in ancestor.authority.operations
  {
    if i > 0 {
      ChainShrinks(s, path, i - 1);
      assert KeyOK(s, path[i - 1], s.keys[path[i - 1]]);
      assert path[i] in s.keys && Descends(s, s.keys[path[i - 1]]);
    }
  }

  /** A key issued under a grant has an issuer that is a key or a token of the same kind of authority; only an independent key issues an independent one. */
  lemma NeverIndependent(s: Store, p: Principal, nameOK: bool)
    requires Inv(s) && Created(s, p, nameOK).Some?
    ensures Created(s, p, nameOK).value.authority.Independent? <==>
      p.credential.kind.APIKey? && p.credential.id in s.keys && s.keys[p.credential.id].authority.Independent?
  {
  }

  /** A key's lineage, ceiling, parent and workspace never change, and a key never goes away. */
  lemma {:induction false} KeysStay(states: seq<Store>, steps: seq<Step>, i: nat, j: nat, id: string)
    requires Run(states, steps) && i <= j < |states| && id in states[i].keys
    ensures id in states[j].keys && states[j].keys[id].authority == states[i].keys[id].authority
    ensures states[j].keys[id].workspaceID == states[i].keys[id].workspaceID
  {
    hide Inv, Created, Issued, Written, ValidDocument, ReferencesOK, Plans;
    if i < j {
      KeysStay(states, steps, i, j - 1, id);
      assert states[j] == Next(states[j - 1], steps[j - 1]);
    }
  }

  // ---------- admission ----------

  /** The principal of an issued key always passes validation: what is in force is admitted, and nothing else. */
  lemma UsableKeyIsAdmitted(s: Store, id: string)
    requires Inv(s)
    ensures AdmitKey(s, id).Some? <==> KeyUsable(s, id)
  {
  }

  lemma UsableTokenIsAdmitted(s: Store, id: string)
    requires Inv(s)
    ensures AdmitToken(s, id).Some? <==> TokenUsable(s, id)
  {
  }

  /** An admitted key can issue a child exactly when it may create keys. */
  lemma AdmittedKeyIssues(s: Store, id: string)
    requires Inv(s) && AdmitKey(s, id).Some?
    ensures var p := AdmitKey(s, id).value;
            Created(s, p, true).Some? <==> API_KEYS_CREATE in p.authority.operations
  {
  }

  /** And what it issues is admitted in its turn, with exactly the issuer's lineage and operations. */
  lemma IssuedKeyIsAdmitted(s: Store, id: string, child: string)
    requires Inv(s) && id in s.keys && s.keys[id].authority.Granted? && AdmitKey(s, id).Some?
    requires Can(s, Create(child, AdmitKey(s, id).value, true)) && Created(s, AdmitKey(s, id).value, true).Some?
    ensures var p := AdmitKey(s, id).value;
            var s' := Next(s, Create(child, p, true));
            && AdmitKey(s', child).Some?
            && AdmitKey(s', child).value.authority.lineage == p.authority.lineage
            && AdmitKey(s', child).value.identity == p.identity
            && (forall op :: op in AdmitKey(s', child).value.authority.operations <==> op in p.authority.operations)
  {
    var p := AdmitKey(s, id).value;
    var s' := Next(s, Create(child, p, true));
    StepKeeps(s, Create(child, p, true));
    UsableKeyIsAdmitted(s', child);
    InheritedValid(p.authority.operations);
    hide ValidOperations, LineagePresent, InForce, Stamped, Inv;
  }
}
