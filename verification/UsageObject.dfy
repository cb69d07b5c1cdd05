/**
 The recorder as its worker and the admissions update it in place; each method is proved to
 be a step of the table, so every law of the runs holds of it.
 */
module UsageObject {
  import opened Options
  import opened UsageTable
  import opened UsageLaws

  /** A step of the others, beside the worker: admissions, key management, shutdown and the clock. */
  function Beside(s: Recorder, step: Step): (after: Recorder)
    ensures after.batch == s.batch
  {
    match step
    case Submit(id, observedAt, contended) => SubmitOne(s, id, observedAt, contended)
    case Create(key, digest) => if NewID(s.rows, key) then s.(rows := Inserted(s.rows, key, digest, false)) else s
    case Revoke(key) => s.(rows := Revoked(s.rows, key))
    case Upsert(key, digest) => if BootstrapKey(s.rows, key) then s.(rows := Upserted(s.rows, key, digest)) else s
    case MarkClosed => s.(closed := true)
    case Discard => s.(closed := true, entries := map[])
    case Wait(elapsed) => s.(now := s.now + elapsed)
    case TakeDue(_) => s
    case Finish(_) => s
  }

  function Meanwhile(s: Recorder, steps: seq<Step>): (after: Recorder)
    ensures after.batch == s.batch
  {
    if steps == [] then s else Beside(Meanwhile(s, steps[..|steps| - 1]), steps[|steps| - 1])
  }

  /** What the others do is the machine's own step, whenever it can happen. */
  lemma BesideIsStep(s: Recorder, step: Step)
    requires Can(s, step) && !step.TakeDue? && !step.Finish?
    ensures Beside(s, step) == Next(s, step)
  {
  }

  /** The write loop of one flush: the samples left meet their fates in turn, others acting before each. */
  function Flushed(s: Recorder, fates: nat -> Fate, others: nat -> seq<Step>, i: nat): (after: Recorder)
    ensures after.batch == []
    decreases |s.batch|
  {
    if s.batch == [] then s
    else Flushed(FinishOne(Meanwhile(s, others(i)), fates(i)), fates, others, i + 1)
  }

  ghost predicate Distinct(ids: seq<Identity>) { forall i, j :: 0 <= i < j < |ids| ==> ids[i] != ids[j] }

  /** Any two identities of a numbered table are ordered one way or the other. */
  lemma Comparable(entries: map<Identity, Entry>, last: nat, a: Identity, b: Identity)
    requires Numbered(entries, last) && a in entries && b in entries && a != b
    ensures Before(entries[a], entries[b]) != Before(entries[b], entries[a])
  {
  }

  /** One more identity goes in before the first that comes after it. */
  method Insert(entries: map<Identity, Entry>, last: nat, queue: seq<Identity>, id: Identity) returns (more: seq<Identity>)
    requires Numbered(entries, last) && Ordered(entries, queue) && id in entries && id !in queue
    ensures Ordered(entries, more)
    ensures forall x :: x in more <==> x in queue || x == id
  {
    var k := |queue|;
    while k > 0 && Before(entries[id], entries[queue[k - 1]])
      invariant 0 <= k <= |queue|
      invariant forall j :: k <= j < |queue| ==> Before(entries[id], entries[queue[j]])
    {
      k := k - 1;
    }
    more := queue[..k] + [id] + queue[k..];
    if k > 0 {
      Comparable(entries, last, id, queue[k - 1]);
    }
    assert forall j :: 0 <= j < k ==> Before(entries[queue[j]], entries[id]);
    assert forall x :: x in queue <==> x in queue[..k] || x in queue[k..];
  }

  /** The due identities in the order of their claims. */
  method Sort(entries: map<Identity, Entry>, last: nat, due: seq<Identity>) returns (queue: seq<Identity>)
    requires Numbered(entries, last) && Distinct(due) && forall id :: id in due ==> id in entries
    ensures Ordered(entries, queue)
    ensures forall id :: id in queue <==> id in due
  {
    queue := [];
    for i := 0 to |due|
      invariant Ordered(entries, queue)
      invariant forall id :: id in queue <==> id in due[..i]
    {
      queue := Insert(entries, last, queue, due[i]);
      assert due[..i + 1] == due[..i] + [due[i]];
    }
    assert due[..|due|] == due;
  }

  function Suppressed(entries: map<Identity, Entry>, claimed: seq<Identity>, now: Time): map<Identity, Entry> {
    map id | id in entries ::
      if id in claimed then entries[id].(pending := false, nextEligible := now + SUPPRESSION) else entries[id]
  }

  /** Forgetting first and claiming then is the whole pass. */
  lemma SiftThenClaim(s: Recorder, queue: seq<Identity>)
    requires Ordered(AfterClaim(s, []), queue)
    requires forall id :: id in queue <==> id in s.entries && IsDue(s.entries[id], s.now)
    ensures Queues(s, queue)
    ensures Suppressed(AfterClaim(s, []), Claimed(queue), s.now) == AfterClaim(s, Claimed(queue))
    ensures Samples(AfterClaim(s, []), Claimed(queue)) == Samples(s.entries, Claimed(queue))
  {
  }

  lemma SiftNumbered(s: Recorder)
    requires Numbered(s.entries, s.sequence)
    ensures Numbered(AfterClaim(s, []), s.sequence)
  {
  }

  lemma InQueue(s: Recorder, queue: seq<Identity>)
    requires Queues(s, queue)
    ensures forall id :: id in Claimed(queue) ==> id in AfterClaim(s, [])
  {
  }

  class Database {
    var rows: map<Key, Row>

    constructor (rows: map<Key, Row>)
      ensures this.rows == rows
    {
      this.rows := rows;
    }

    /** The guarded update; `matched` is whether it touched a row. */
    method Write(item: Work) returns (matched: bool)
      modifies this
      ensures rows == Update(old(rows), item) && matched == Matches(old(rows), item)
    {
      var key := KeyOf(item.identity);
      matched := false;
      if key in rows && rows[key].digest == item.identity.digest && rows[key].generation == item.identity.generation &&
         !rows[key].revoked && (rows[key].lastUsedAt.None? || item.observedAt >= rows[key].lastUsedAt.value + SUPPRESSION)
      {
        rows := rows[key := rows[key].(lastUsedAt := Some(item.observedAt))];
        matched := true;
      }
    }

    /** What other transactions do to the rows between two updates. */
    method Apply(step: Step)
      modifies this
      ensures rows == Beside(Recorder(0, map[], 0, false, [], NO_COUNTS, old(rows)), step).rows
    {
      match step
      case Create(key, digest) =>
        if NewID(rows, key) && !Taken(rows, key, digest) {
          rows := rows[key := Row(digest, 1, false, None, false)];
        }
      case Revoke(key) =>
        if key in rows && !rows[key].revoked {
          rows := rows[key := rows[key].(revoked := true, generation := rows[key].generation + 1)];
        }
      case Upsert(key, digest) =>
        if BootstrapKey(rows, key) && !Taken(rows, key, digest) {
          if key !in rows {
            rows := rows[key := Row(digest, 1, false, None, true)];
          } else if digest != rows[key].digest || rows[key].revoked {
            rows := rows[key := rows[key].(digest := digest, revoked := false, lastUsedAt := None, generation := rows[key].generation + 1)];
          }
        }
      case _ =>
    }
  }

  class UsageRecorder {
    const db: Database
    var closed: bool
    var entries: map<Identity, Entry>
    var sequence: nat
    var batch: seq<Work>
    var droppedCapacity: nat
    var droppedContended: nat
    var droppedClosed: nat
    var droppedDeadline: nat
    var droppedDatabase: nat
    var droppedUnconfirmed: nat
    var updated: nat

    ghost function Tally(): Counts
      reads this
    {
      Counts(droppedCapacity, droppedContended, droppedClosed, droppedDeadline, droppedDatabase, droppedUnconfirmed, updated)
    }

    /** The recorder at a reading of the local clock. */
    ghost function View(now: Time): Recorder
      reads this, db
    {
      Recorder(now, entries, sequence, closed, batch, Tally(), db.rows)
    }

    constructor (db: Database)
      ensures this.db == db && forall now :: View(now) == NewRecorder(now, db.rows)
    {
      this.db, this.closed, this.entries, this.sequence, this.batch := db, false, map[], 0, [];
      this.droppedCapacity, this.droppedContended, this.droppedClosed := 0, 0, 0;
      this.droppedDeadline, this.droppedDatabase, this.droppedUnconfirmed, this.updated := 0, 0, 0, 0;
    }

    /** submit; `contended` is a failed try of the map's mutex. */
    method Submit(id: Identity, observedAt: Time, contended: bool, now: Time)
      modifies this
      ensures View(now) == SubmitOne(old(View(now)), id, observedAt, contended)
    {
      if closed {
        droppedClosed := droppedClosed + 1;
        return;
      }
      if contended {
        droppedContended := droppedContended + 1;
        return;
      }
      if id in entries {
        var entry := entries[id];
        if observedAt > entry.observedAt {
          entry := entry.(observedAt := observedAt);
        }
        entries := entries[id := entry.(pending := true)];
        return;
      }
      if |entries| >= CAPACITY {
        droppedCapacity := droppedCapacity + 1;
        return;
      }
      sequence := sequence + 1;
      entries := entries[id := Entry(observedAt, true, sequence, now)];
    }

    /** The first loop of takeDue: forget what is neither suppressed nor pending, collect what is due. */
    method Sift(now: Time) returns (due: seq<Identity>)
      modifies this`entries
      ensures entries == AfterClaim(old(View(now)), [])
      ensures Distinct(due) && forall id :: id in due <==> id in old(entries) && IsDue(old(entries)[id], now)
      ensures forall id :: id in due ==> id in entries
    {
      due := [];
      var rest := entries.Keys;
      while rest != {}
        invariant rest <= old(entries).Keys
        invariant forall id :: id in entries <==>
          id in old(entries) && (id in rest || now < old(entries)[id].nextEligible || old(entries)[id].pending)
        invariant forall id :: id in entries ==> entries[id] == old(entries)[id]
        invariant forall id :: id in due <==> id in old(entries) && id !in rest && IsDue(old(entries)[id], now)
        invariant Distinct(due)
        decreases |rest|
      {
        var id :| id in rest;
        rest := rest - {id};
        var entry := entries[id];
        if now < entry.nextEligible {
          continue;
        }
        if !entry.pending {
          entries := entries - {id};
          continue;
        }
        due := due + [id];
      }
    }

    /** The last loop of takeDue: take the samples of the claimed identities and suppress them. */
    method Claim(claimed: seq<Identity>, now: Time) returns (work: seq<Work>)
      requires Distinct(claimed) && forall id :: id in claimed ==> id in entries
      modifies this`entries
      ensures work == Samples(old(entries), claimed)
      ensures entries == Suppressed(old(entries), claimed, now)
    {
      work := [];
      for i := 0 to |claimed|
        invariant entries == Suppressed(old(entries), claimed[..i], now)
        invariant work == Samples(old(entries), claimed)[..i]
      {
        var id := claimed[i];
        assert id in claimed && id !in claimed[..i];
        work := work + [Work(id, entries[id].observedAt)];
        entries := entries[id := entries[id].(pending := false, nextEligible := now + SUPPRESSION)];
        assert claimed[..i + 1] == claimed[..i] + [id];
      }
      assert claimed[..|claimed|] == claimed;
    }

    method TakeDue(now: Time) returns (ghost queue: seq<Identity>)
      requires Inv(View(now)) && batch == []
      modifies this`entries, this`batch
      ensures Queues(old(View(now)), queue) && View(now) == TakeDueStep(old(View(now)), queue)
    {
      hide Numbered, Ordered, AfterClaim, Suppressed, Samples, Queues;
      ghost var s := View(now);
      var due := Sift(now);
      SiftNumbered(s);
      var sorted := Sort(entries, sequence, due);
      queue := sorted;
      SiftThenClaim(s, queue);
      QueueDistinct(entries, queue);
      if |sorted| > BATCH {
        sorted := sorted[..BATCH];
      }
      InQueue(s, queue);
      batch := Claim(sorted, now);
    }

    method ActBeside(step: Step, now: Time) returns (later: Time)
      modifies this, db
      ensures View(later) == Beside(old(View(now)), step)
    {
      later := now;
      match step
      case Submit(id, observedAt, contended) => Submit(id, observedAt, contended, now);
      case MarkClosed => closed := true;
      case Discard => Discard(now);
      case Wait(elapsed) => later := now + elapsed;
      case _ => db.Apply(step);
    }

    method ActMeanwhile(steps: seq<Step>, now: Time) returns (later: Time)
      modifies this, db
      ensures View(later) == Meanwhile(old(View(now)), steps)
    {
      hide Beside;
      later := now;
      for i := 0 to |steps|
        invariant View(later) == Meanwhile(old(View(now)), steps[..i])
      {
        assert steps[..i + 1][..i] == steps[..i];
        later := ActBeside(steps[i], later);
      }
      assert steps[..|steps|] == steps;
    }

    /** The write loop of flush; `fates` are the outcomes of its writes and `others` what happens before each. */
    method WriteBatch(fates: nat -> Fate, others: nat -> seq<Step>, now: Time) returns (later: Time)
      modifies this, db
      ensures View(later) == Flushed(old(View(now)), fates, others, 0)
    {
      hide Meanwhile;
      later := now;
      var i := 0;
      while batch != []
        invariant Flushed(View(later), fates, others, i) == Flushed(old(View(now)), fates, others, 0)
        decreases |batch|
      {
        later := ActMeanwhile(others(i), later);
        FinishFirst(fates(i), later);
        i := i + 1;
      }
    }

    method FinishFirst(fate: Fate, now: Time)
      requires batch != []
      modifies this, db
      ensures View(now) == FinishOne(old(View(now)), fate)
    {
      var item := batch[0];
      match fate
      case TimedOut =>
        droppedDeadline := droppedDeadline + |batch|;
        batch := [];
      case Abandoned(applied) =>
        if applied {
          var _ := db.Write(item);
        }
        batch := [];
      case Failed(matched, applied) =>
        if applied {
          var _ := db.Write(item);
        }
        if matched {
          droppedUnconfirmed := droppedUnconfirmed + 1;
        } else {
          droppedDatabase := droppedDatabase + 1;
        }
        batch := batch[1..];
      case Committed =>
        var written := db.Write(item);
        if written {
          updated := updated + 1;
        }
        batch := batch[1..];
    }

    /** flush: one batch is claimed and written. */
    method Flush(fates: nat -> Fate, others: nat -> seq<Step>, now: Time) returns (later: Time, ghost queue: seq<Identity>)
      requires Inv(View(now)) && batch == []
      modifies this, db
      ensures Queues(old(View(now)), queue)
      ensures View(later) == Flushed(TakeDueStep(old(View(now)), queue), fates, others, 0)
      ensures batch == []
    {
      queue := TakeDue(now);
      later := WriteBatch(fates, others, now);
    }

    method Discard(now: Time)
      modifies this`closed, this`entries
      ensures View(now) == Next(old(View(now)), Step.Discard)
    {
      closed := true;
      entries := map[];
    }
  }
}
