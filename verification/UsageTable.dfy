/**
 The API-key usage recorder (internal/auth/api_key_usage.go): a bounded table of samples,
 a scheduler that claims the oldest due ones in batches, and the guarded row update. The
 map is under one mutex and the worker holds at most one batch, so every operation is one
 step; the fate of a database write is a parameter.
 */
module UsageTable {
  import opened Options

  type Time = int

  const CAPACITY: nat := 4096
  const BATCH: nat := 128
  const SUPPRESSION: int := 300_000_000_000

  /** One credential instance: the same digest may come back under a later generation. */
  datatype Identity = Identity(workspaceID: string, keyID: string, digest: string, generation: int)

  datatype Entry = Entry(observedAt: Time, pending: bool, sequence: nat, nextEligible: Time)

  datatype Work = Work(identity: Identity, observedAt: Time)

  datatype Counts = Counts(capacity: nat, contended: nat, closed: nat, deadline: nat, database: nat, unconfirmed: nat, updated: nat)

  const NO_COUNTS: Counts := Counts(0, 0, 0, 0, 0, 0, 0)

  /** A row of api_keys: what the update statement reads, and whether it is its workspace's bootstrap key. */
  datatype Row = Row(digest: string, generation: int, revoked: bool, lastUsedAt: Option<Time>, bootstrap: bool)

  type Key = (string, string)

  /** `batch` is what the worker has claimed and not yet finished. */
  datatype Recorder = Recorder(
    now: Time, entries: map<Identity, Entry>, sequence: nat, closed: bool,
    batch: seq<Work>, counts: Counts, rows: map<Key, Row>)

  /** How a claimed sample ends; `applied` says whether the row changed although no commit was seen. */
  datatype Fate =
    | TimedOut
    | Abandoned(applied: bool)
    | Failed(matched: bool, applied: bool)
    | Committed

  datatype Step =
    | Submit(identity: Identity, observedAt: Time, contended: bool)
    | TakeDue(queue: seq<Identity>)
    | Finish(fate: Fate)
    | MarkClosed
    | Discard
    | Wait(elapsed: nat)
    | Create(key: Key, digest: string)
    | Revoke(key: Key)
    | Upsert(key: Key, digest: string)

  // ---------- submissions ----------

  function Merged(e: Entry, observedAt: Time): Entry {
    e.(observedAt := if observedAt > e.observedAt then observedAt else e.observedAt, pending := true)
  }

  function SubmitOne(s: Recorder, id: Identity, observedAt: Time, contended: bool): Recorder {
    if s.closed then s.(counts := s.counts.(closed := s.counts.closed + 1))
    else if contended then s.(counts := s.counts.(contended := s.counts.contended + 1))
    else if id in s.entries then s.(entries := s.entries[id := Merged(s.entries[id], observedAt)])
    else if |s.entries| >= CAPACITY then s.(counts := s.counts.(capacity := s.counts.capacity + 1))
    else
      s.(sequence := s.sequence + 1, entries := s.entries[id := Entry(observedAt, true, s.sequence + 1, s.now)])
  }

  // ---------- claims ----------

  predicate IsDue(e: Entry, now: Time) { e.pending && now >= e.nextEligible }

  /** Oldest eligibility first, then the order of insertion. */
  predicate Before(a: Entry, b: Entry) {
    a.nextEligible < b.nextEligible || (a.nextEligible == b.nextEligible && a.sequence < b.sequence)
  }

  ghost predicate Ordered(entries: map<Identity, Entry>, queue: seq<Identity>) {
    && (forall id :: id in queue ==> id in entries)
    && (forall i, j :: 0 <= i < j < |queue| ==> Before(entries[queue[i]], entries[queue[j]]))
  }

  /** All due identities, in the order they are claimed. */
  ghost predicate Queues(s: Recorder, queue: seq<Identity>) {
    && Ordered(s.entries, queue)
    && (forall id :: id in queue <==> id in s.entries && IsDue(s.entries[id], s.now))
  }

  function Claimed(queue: seq<Identity>): seq<Identity> {
    if |queue| > BATCH then queue[..BATCH] else queue
  }

  function Samples(entries: map<Identity, Entry>, ids: seq<Identity>): seq<Work>
    requires forall id :: id in ids ==> id in entries
  {
    seq(|ids|, i requires 0 <= i < |ids| => assert ids[i] in ids; Work(ids[i], entries[ids[i]].observedAt))
  }

  /** Entries neither due nor suppressed are forgotten, claimed ones suppressed. */
  function AfterClaim(s: Recorder, claimed: seq<Identity>): map<Identity, Entry> {
    map id | id in s.entries && (s.now < s.entries[id].nextEligible || s.entries[id].pending) ::
      if id in claimed then s.entries[id].(pending := false, nextEligible := s.now + SUPPRESSION) else s.entries[id]
  }

  ghost function TakeDueStep(s: Recorder, queue: seq<Identity>): Recorder
    requires Queues(s, queue)
  {
    var claimed := Claimed(queue);
    s.(entries := AfterClaim(s, claimed), batch := Samples(s.entries, claimed))
  }

  // ---------- writes ----------

  function KeyOf(id: Identity): Key { (id.workspaceID, id.keyID) }

  /** The WHERE clause of the update. */
  predicate Matches(rows: map<Key, Row>, w: Work) {
    var key := KeyOf(w.identity);
    && key in rows
    && rows[key].digest == w.identity.digest && rows[key].generation == w.identity.generation
    && !rows[key].revoked
    && (rows[key].lastUsedAt.None? || w.observedAt >= rows[key].lastUsedAt.value + SUPPRESSION)
  }

  function Update(rows: map<Key, Row>, w: Work): map<Key, Row> {
    var key := KeyOf(w.identity);
    if Matches(rows, w) then rows[key := rows[key].(lastUsedAt := Some(w.observedAt))] else rows
  }

  /** One turn of the write loop: the first sample of the batch meets its fate. */
  function FinishOne(s: Recorder, fate: Fate): Recorder
    requires s.batch != []
  {
    var w := s.batch[0];
    match fate
    case TimedOut => s.(batch := [], counts := s.counts.(deadline := s.counts.deadline + |s.batch|))
    case Abandoned(applied) => s.(batch := [], rows := if applied then Update(s.rows, w) else s.rows)
    case Failed(matched, applied) =>
      s.(batch := s.batch[1..],
         rows := if applied then Update(s.rows, w) else s.rows,
         counts := if matched then s.counts.(unconfirmed := s.counts.unconfirmed + 1)
                   else s.counts.(database := s.counts.database + 1))
    case Committed =>
      s.(batch := s.batch[1..], rows := Update(s.rows, w),
         counts := if Matches(s.rows, w) then s.counts.(updated := s.counts.updated + 1) else s.counts)
  }

  // ---------- steps ----------

  /** Another row has the digest, which the table's unique index refuses. */
  predicate Taken(rows: map<Key, Row>, key: Key, digest: string) {
    exists k :: k in rows && k != key && rows[k].digest == digest
  }

  /** The insert of a new standard key, or of a workspace's first bootstrap key. */
  function Inserted(rows: map<Key, Row>, key: Key, digest: string, bootstrap: bool): map<Key, Row> {
    if Taken(rows, key, digest) then rows else rows[key := Row(digest, 1, false, None, bootstrap)]
  }

  /** RevokeForWorkspace: the trigger advances the generation, the stored time stays. */
  function Revoked(rows: map<Key, Row>, key: Key): map<Key, Row> {
    if key !in rows || rows[key].revoked then rows
    else rows[key := rows[key].(revoked := true, generation := rows[key].generation + 1)]
  }

  /** The guard of the bootstrap upsert: another digest, or a revoked row. */
  predicate Replaces(row: Row, digest: string) { digest != row.digest || row.revoked }

  /** UpsertBootstrap, on the bootstrap key of a workspace: a replaced or reactivated row loses its stored time. */
  function Upserted(rows: map<Key, Row>, key: Key, digest: string): map<Key, Row> {
    if key !in rows then Inserted(rows, key, digest, true)
    else if Taken(rows, key, digest) || !Replaces(rows[key], digest) then rows
    else rows[key := Row(digest, rows[key].generation + 1, false, None, true)]
  }

  /** No row has the ID. */
  predicate NewID(rows: map<Key, Row>, key: Key) { forall k :: k in rows ==> k.1 != key.1 }

  /** The key an upsert works on: the bootstrap key of its workspace, or a new one if there is none. */
  predicate BootstrapKey(rows: map<Key, Row>, key: Key) {
    if key in rows then rows[key].bootstrap
    else NewID(rows, key) && forall k :: k in rows && k.0 == key.0 ==> !rows[k].bootstrap
  }

  /** A failed write whose row matched may still have been applied, and no other. */
  predicate Possible(s: Recorder, fate: Fate)
    requires s.batch != []
  {
    fate.Failed? ==> (fate.applied ==> fate.matched) && (fate.matched ==> Matches(s.rows, s.batch[0]))
  }

  ghost predicate Can(s: Recorder, step: Step) {
    match step
    case TakeDue(queue) => s.batch == [] && Queues(s, queue)
    case Finish(fate) => s.batch != [] && Possible(s, fate)
    case Create(key, _) => NewID(s.rows, key)
    case Upsert(key, _) => BootstrapKey(s.rows, key)
    case _ => true
  }

  ghost function Next(s: Recorder, step: Step): Recorder
    requires Can(s, step)
  {
    match step
    case Submit(id, observedAt, contended) => SubmitOne(s, id, observedAt, contended)
    case TakeDue(queue) => TakeDueStep(s, queue)
    case Finish(fate) => FinishOne(s, fate)
    case MarkClosed => s.(closed := true)
    case Discard => s.(closed := true, entries := map[])
    case Wait(elapsed) => s.(now := s.now + elapsed)
    case Create(key, digest) => s.(rows := Inserted(s.rows, key, digest, false))
    case Revoke(key) => s.(rows := Revoked(s.rows, key))
    case Upsert(key, digest) => s.(rows := Upserted(s.rows, key, digest))
  }

  function NewRecorder(now: Time, rows: map<Key, Row>): Recorder {
    Recorder(now, map[], 0, false, [], NO_COUNTS, rows)
  }
}
