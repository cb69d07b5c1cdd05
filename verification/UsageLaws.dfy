/**
 What holds over every run of the usage recorder: bounded waiting, claims five minutes
 apart, the newest observation carried, no sample lost uncounted, and row times that only
 move forward.
 */
module UsageLaws {
  import opened Options
  import opened UsageTable

  // ---------- the invariant ----------

  /** The table is bounded and its insertion numbers are distinct. */
  ghost predicate Inv(s: Recorder) {
    |s.entries| <= CAPACITY && Numbered(s.entries, s.sequence) && |s.batch| <= BATCH
  }

  ghost predicate Numbered(entries: map<Identity, Entry>, last: nat) {
    && (forall id :: id in entries ==> entries[id].sequence <= last)
    && (forall a, b :: a in entries && b in entries && entries[a].sequence == entries[b].sequence ==> a == b)
  }

  ghost predicate Run(states: seq<Recorder>, steps: seq<Step>) {
    && |states| == |steps| + 1
    && Inv(states[0])
    && (forall i :: 0 <= i < |steps| ==> Can(states[i], steps[i]))
    && (forall i :: 0 <= i < |steps| ==> states[i + 1] == Next(states[i], steps[i]))
  }

  lemma SubmitInv(s: Recorder, id: Identity, observedAt: Time, contended: bool)
    requires Inv(s)
    ensures Inv(SubmitOne(s, id, observedAt, contended))
  {
  }

  lemma TakeDueInv(s: Recorder, queue: seq<Identity>)
    requires Inv(s) && Queues(s, queue)
    ensures Inv(TakeDueStep(s, queue))
  {
    Subset(AfterClaim(s, Claimed(queue)).Keys, s.entries.Keys);
  }

  lemma StepInv(s: Recorder, step: Step)
    requires Inv(s) && Can(s, step)
    ensures Inv(Next(s, step))
  {
    assert Numbered(map[], s.sequence);
    hide SubmitOne, TakeDueStep, Queues, Update, Numbered;
    match step
    case TakeDue(queue) => TakeDueInv(s, queue);
    case Submit(id, observedAt, contended) => SubmitInv(s, id, observedAt, contended);
    case _ =>
  }

  lemma Subset<T>(a: set<T>, b: set<T>)
    requires a <= b
    ensures |a| <= |b|
  {
    if a != b {
      assert b == a + (b - a);
    }
  }

  lemma NewRecorderInv(now: Time, rows: map<Key, Row>)
    ensures Inv(NewRecorder(now, rows))
  {
  }

  lemma {:induction false} RunInv(states: seq<Recorder>, steps: seq<Step>, i: nat)
    requires Run(states, steps) && i < |states|
    ensures Inv(states[i])
  {
    if i > 0 {
      RunInv(states, steps, i - 1);
      StepInv(states[i - 1], steps[i - 1]);
    }
  }

  /** The table never holds more than 4096 identities. */
  lemma TableBounded(states: seq<Recorder>, steps: seq<Step>, i: nat)
    requires Run(states, steps) && i < |states|
    ensures |states[i].entries| <= CAPACITY
  {
    RunInv(states, steps, i);
  }

  // ---------- bounded waiting ----------

  ghost predicate Waiting(s: Recorder, id: Identity) { id in s.entries && IsDue(s.entries[id], s.now) }

  /** The identities that would be claimed before id, were they due. */
  ghost function Ahead(s: Recorder, id: Identity): set<Identity>
    requires id in s.entries
  {
    set j | j in s.entries && Before(s.entries[j], s.entries[id])
  }

  ghost predicate Claims(step: Step, id: Identity) { step.TakeDue? && id in Claimed(step.queue) }

  lemma {:induction false} PrefixCount(queue: seq<Identity>, n: nat)
    requires n <= |queue| && forall i, j :: 0 <= i < j < |queue| ==> queue[i] != queue[j]
    ensures |set i | 0 <= i < n :: queue[i]| == n
  {
    var some := set i | 0 <= i < n :: queue[i];
    if n > 0 {
      PrefixCount(queue, n - 1);
      var fewer := set i | 0 <= i < n - 1 :: queue[i];
      assert some == fewer + {queue[n - 1]};
      assert queue[n - 1] !in fewer;
    } else {
      assert some == {};
    }
  }

  lemma QueueDistinct(entries: map<Identity, Entry>, queue: seq<Identity>)
    requires Ordered(entries, queue)
    ensures forall i, j :: 0 <= i < j < |queue| ==> queue[i] != queue[j]
  {
  }

  /** A pass that misses a waiting identity takes a whole batch from ahead of it. */
  lemma MissedPass(s: Recorder, queue: seq<Identity>, id: Identity)
    requires Inv(s) && Queues(s, queue) && Waiting(s, id) && id !in Claimed(queue)
    ensures var s' := TakeDueStep(s, queue);
            Waiting(s', id) && Ahead(s', id) <= Ahead(s, id) && |Ahead(s', id)| + BATCH <= |Ahead(s, id)|
  {
    var s' := TakeDueStep(s, queue);
    var first := set i | 0 <= i < BATCH :: queue[i];
    var at :| 0 <= at < |queue| && queue[at] == id;
    assert BATCH <= at;
    QueueDistinct(s.entries, queue);
    PrefixCount(queue, BATCH);
    forall j | j in first
      ensures j in Ahead(s, id) && j !in Ahead(s', id)
    {
      var i :| 0 <= i < BATCH && queue[i] == j;
      assert Before(s.entries[queue[i]], s.entries[queue[at]]);
      assert j == Claimed(queue)[i] && j in Claimed(queue);
    }
    forall j | j in Ahead(s', id)
      ensures j in Ahead(s, id)
    {
      assert j in s'.entries && j in s.entries;
    }
    Subset(Ahead(s', id), Ahead(s, id) - first);
  }

  lemma StepWaits(s: Recorder, step: Step, id: Identity)
    requires Inv(s) && Can(s, step) && Waiting(s, id) && !step.Discard? && !Claims(step, id)
    ensures var s' := Next(s, step);
            && Waiting(s', id)
            && |Ahead(s', id)| + (if step.TakeDue? then BATCH else 0) <= |Ahead(s, id)|
  {
    var s' := Next(s, step);
    if step.TakeDue? {
      MissedPass(s, step.queue, id);
    } else {
      assert Waiting(s', id);
      forall j | j in Ahead(s', id)
        ensures j in Ahead(s, id)
      {
        assert j in s.entries;
      }
      Subset(Ahead(s', id), Ahead(s, id));
    }
  }

  function Passes(steps: seq<Step>): nat {
    if steps == [] then 0 else (if steps[0].TakeDue? then 1 else 0) + Passes(steps[1..])
  }

  /** With fewer than 128 n identities ahead, one of the first n passes claims the waiting identity. */
  lemma {:induction false} ClaimedInTime(states: seq<Recorder>, steps: seq<Step>, id: Identity, n: nat) returns (k: nat)
    requires Run(states, steps) && Waiting(states[0], id) && n <= Passes(steps)
    requires |Ahead(states[0], id)| < BATCH * n
    requires forall i :: 0 <= i < |steps| ==> !steps[i].Discard?
    ensures k < |steps| && Claims(steps[k], id) && Passes(steps[..k]) < n
    decreases |steps|
  {
    if Claims(steps[0], id) {
      k := 0;
    } else {
      StepWaits(states[0], steps[0], id);
      StepInv(states[0], steps[0]);
      var rest := ClaimedInTime(states[1..], steps[1..], id, if steps[0].TakeDue? then n - 1 else n);
      k := rest + 1;
      assert steps[..k][1..] == steps[1..][..rest];
    }
  }

  /** Once pending and due, an identity is claimed within 32 passes, whatever is submitted meanwhile. */
  lemma ClaimedWithin32(states: seq<Recorder>, steps: seq<Step>, id: Identity) returns (k: nat)
    requires Run(states, steps) && Waiting(states[0], id) && Passes(steps) >= 32
    requires forall i :: 0 <= i < |steps| ==> !steps[i].Discard?
    ensures k < |steps| && Claims(steps[k], id) && Passes(steps[..k]) < 32
  {
    var s := states[0];
    Subset(Ahead(s, id) + {id}, s.entries.Keys);
    k := ClaimedInTime(states, steps, id, 32);
  }

  // ---------- what a pass claims ----------

  ghost function DueAhead(s: Recorder, id: Identity): set<Identity>
    requires id in s.entries
  {
    set j | j in s.entries && IsDue(s.entries[j], s.now) && Before(s.entries[j], s.entries[id])
  }

  lemma Rank(s: Recorder, queue: seq<Identity>, at: nat)
    requires Queues(s, queue) && at < |queue|
    ensures |DueAhead(s, queue[at])| == at
  {
    QueueDistinct(s.entries, queue);
    PrefixCount(queue, at);
    var first := set i | 0 <= i < at :: queue[i];
    forall i | at < i < |queue|
      ensures !Before(s.entries[queue[i]], s.entries[queue[at]])
    {
      assert Before(s.entries[queue[at]], s.entries[queue[i]]);
    }
    forall j | j in DueAhead(s, queue[at])
      ensures j in first
    {
      assert j in queue;
    }
    forall j | j in first
      ensures j in DueAhead(s, queue[at])
    {
      var i :| 0 <= i < at && queue[i] == j;
      assert j in queue && Before(s.entries[queue[i]], s.entries[queue[at]]);
    }
    assert DueAhead(s, queue[at]) == first;
  }

  /** A pass claims exactly the due identities with fewer than 128 due identities ahead of them. */
  lemma ClaimedExactly(s: Recorder, queue: seq<Identity>, id: Identity)
    requires Queues(s, queue)
    ensures id in Claimed(queue) <==> Waiting(s, id) && |DueAhead(s, id)| < BATCH
  {
    if id in queue {
      var at :| 0 <= at < |queue| && queue[at] == id;
      Rank(s, queue, at);
      QueueDistinct(s.entries, queue);
      if at < BATCH {
        assert Claimed(queue)[at] == id;
      }
    }
  }

  // ---------- claims five minutes apart ----------

  /** A claim at time t still bars id: the table is gone, or the entry is suppressed, or five minutes have passed. */
  ghost predicate Barred(s: Recorder, id: Identity, t: Time) {
    || s.now >= t + SUPPRESSION
    || (s.closed && s.entries == map[])
    || (id in s.entries && s.entries[id].nextEligible >= t + SUPPRESSION)
  }

  lemma StepBarred(s: Recorder, step: Step, id: Identity, t: Time)
    requires Can(s, step) && Barred(s, id, t)
    ensures Barred(Next(s, step), id, t)
    ensures Claims(step, id) ==> s.now >= t + SUPPRESSION
  {
  }

  lemma {:induction false} StaysBarred(states: seq<Recorder>, steps: seq<Step>, i: nat, j: nat, id: Identity)
    requires Run(states, steps) && i < j < |states| && Claims(steps[i], id)
    ensures Barred(states[j], id, states[i].now)
  {
    if j == i + 1 {
      assert id in steps[i].queue;
    } else {
      StaysBarred(states, steps, i, j - 1, id);
      StepBarred(states[j - 1], steps[j - 1], id, states[i].now);
    }
  }

  /** Two claims of one identity are at least five minutes apart, through any forgetting and re-creation. */
  lemma ClaimsFiveMinutesApart(states: seq<Recorder>, steps: seq<Step>, i: nat, j: nat, id: Identity)
    requires Run(states, steps) && i < j < |steps| && Claims(steps[i], id) && Claims(steps[j], id)
    ensures states[j].now >= states[i].now + SUPPRESSION
  {
    StaysBarred(states, steps, i, j, id);
    StepBarred(states[j], steps[j], id, states[i].now);
  }

  // ---------- what a claim carries ----------

  /** A submission of id that reaches the table. */
  ghost predicate Reaches(s: Recorder, step: Step, id: Identity) {
    step.Submit? && step.identity == id && !s.closed && !step.contended && (id in s.entries || |s.entries| < CAPACITY)
  }

  /** Steps c..k are one life of id's entry: inserted at c and present ever since. */
  ghost predicate OneLife(states: seq<Recorder>, steps: seq<Step>, c: nat, k: nat, id: Identity) {
    && Run(states, steps) && c < k < |states|
    && id !in states[c].entries
    && forall i :: c < i <= k ==> id in states[i].entries
  }

  lemma EntryMoves(s: Recorder, step: Step, id: Identity)
    requires Can(s, step) && id in Next(s, step).entries
    ensures id !in s.entries ==> Reaches(s, step, id)
    ensures Next(s, step).entries[id].observedAt ==
            if Reaches(s, step, id) && (id in s.entries ==> step.observedAt > s.entries[id].observedAt)
            then step.observedAt else s.entries[id].observedAt
  {
  }

  /** The entry holds the newest observation that reached it in this life, and no other. */
  lemma {:induction false} HoldsNewest(states: seq<Recorder>, steps: seq<Step>, c: nat, k: nat, id: Identity)
    requires OneLife(states, steps, c, k, id)
    ensures forall i :: c <= i < k && Reaches(states[i], steps[i], id) ==> steps[i].observedAt <= states[k].entries[id].observedAt
    ensures exists i :: c <= i < k && Reaches(states[i], steps[i], id) && steps[i].observedAt == states[k].entries[id].observedAt
  {
    hide Next, Can, Inv;
    var before, step, after := states[k - 1], steps[k - 1], states[k];
    EntryMoves(before, step, id);
    if k > c + 1 {
      HoldsNewest(states, steps, c, k - 1, id);
      var i :| c <= i < k - 1 && Reaches(states[i], steps[i], id) && steps[i].observedAt == before.entries[id].observedAt;
    }
    assert k == c + 1 || after.entries[id].observedAt != before.entries[id].observedAt ==> Reaches(before, step, id);
  }

  /** A claim carries the newest observation submitted since the entry was created. */
  lemma ClaimCarriesNewest(states: seq<Recorder>, steps: seq<Step>, c: nat, k: nat, id: Identity) returns (at: nat)
    requires OneLife(states, steps, c, k, id) && k < |steps| && Claims(steps[k], id)
    ensures at < |states[k + 1].batch| && states[k + 1].batch[at].identity == id
    ensures forall i :: c <= i < k && Reaches(states[i], steps[i], id) ==> steps[i].observedAt <= states[k + 1].batch[at].observedAt
    ensures exists i :: c <= i < k && Reaches(states[i], steps[i], id) && steps[i].observedAt == states[k + 1].batch[at].observedAt
  {
    HoldsNewest(states, steps, c, k, id);
    var claimed := Claimed(steps[k].queue);
    at :| 0 <= at < |claimed| && claimed[at] == id;
    assert states[k + 1] == Next(states[k], steps[k]);
  }

  // ---------- accounting ----------

  ghost function Count(states: seq<Recorder>, steps: seq<Step>, k: nat, f: (Recorder, Step) -> nat): nat
    requires k <= |steps| <= |states|
  {
    if k == 0 then 0 else Count(states, steps, k - 1, f) + f(states[k - 1], steps[k - 1])
  }

  function Submitted(s: Recorder, step: Step): nat { if step.Submit? then 1 else 0 }

  /** A submission that leaves its identity pending in the table with an observation at least as new. */
  function Stored(s: Recorder, step: Step): nat {
    if step.Submit? && step.identity in SubmitOne(s, step.identity, step.observedAt, step.contended).entries
       && SubmitOne(s, step.identity, step.observedAt, step.contended).counts == s.counts
    then 1 else 0
  }

  function Selected(s: Recorder, step: Step): nat { if step.TakeDue? then |Claimed(step.queue)| else 0 }

  /** Samples that end uncounted: those of a cancelled worker and committed updates that matched no row. */
  function Silent(s: Recorder, step: Step): nat {
    if step.Finish? && step.fate.Abandoned? then |s.batch|
    else if step.Finish? && step.fate.Committed? && s.batch != [] && !Matches(s.rows, s.batch[0]) then 1
    else 0
  }

  function Dropped(c: Counts): nat { c.capacity + c.contended + c.closed }

  function Ended(c: Counts): nat { c.deadline + c.database + c.unconfirmed + c.updated }

  lemma StoredMeansPending(s: Recorder, step: Step)
    requires step.Submit?
    ensures Stored(s, step) == 1 <==> Reaches(s, step, step.identity)
    ensures Stored(s, step) == 1 ==>
      var e := Next(s, step).entries[step.identity]; e.pending && e.observedAt >= step.observedAt
    ensures Stored(s, step) == 0 ==> Next(s, step).entries == s.entries && Dropped(Next(s, step).counts) == Dropped(s.counts) + 1
  {
  }

  lemma DropsMove(s: Recorder, step: Step)
    requires Can(s, step)
    ensures Submitted(s, step) == Stored(s, step) + Dropped(Next(s, step).counts) - Dropped(s.counts)
  {
  }

  lemma EndsMove(s: Recorder, step: Step)
    requires Can(s, step)
    ensures |s.batch| + Selected(s, step) ==
            |Next(s, step).batch| + Silent(s, step) + Ended(Next(s, step).counts) - Ended(s.counts)
  {
  }

  /** Every submission is stored or counted in exactly one drop counter. */
  lemma {:induction false} SubmissionsAccounted(states: seq<Recorder>, steps: seq<Step>, k: nat)
    requires Run(states, steps) && k <= |steps|
    ensures Count(states, steps, k, Submitted) ==
            Count(states, steps, k, Stored) + Dropped(states[k].counts) - Dropped(states[0].counts)
  {
    hide Next, Can, Inv, Dropped, Ended, Submitted, Stored, Selected, Silent;
    if k > 0 {
      SubmissionsAccounted(states, steps, k - 1);
      DropsMove(states[k - 1], steps[k - 1]);
    }
  }

  /** Every claimed sample is in the batch still, counted once, or silent for one of the two stated reasons. */
  lemma {:induction false} SamplesAccounted(states: seq<Recorder>, steps: seq<Step>, k: nat)
    requires Run(states, steps) && k <= |steps|
    ensures |states[0].batch| + Count(states, steps, k, Selected) ==
            |states[k].batch| + Count(states, steps, k, Silent) + Ended(states[k].counts) - Ended(states[0].counts)
  {
    hide Next, Can, Inv, Dropped, Ended, Submitted, Stored, Selected, Silent;
    if k > 0 {
      SamplesAccounted(states, steps, k - 1);
      EndsMove(states[k - 1], steps[k - 1]);
    }
  }

  // ---------- the stored times ----------

  /** The stored time stays, or moves forward by five minutes or more. */
  ghost predicate Forward(r: Row, r': Row) {
    r'.lastUsedAt == r.lastUsedAt ||
    (r'.lastUsedAt.Some? && (r.lastUsedAt.Some? ==> r'.lastUsedAt.value >= r.lastUsedAt.value + SUPPRESSION))
  }

  /** There was a stored time, and it is gone or earlier now. */
  ghost predicate GoesBack(r: Row, r': Row) {
    r.lastUsedAt.Some? && (r'.lastUsedAt.None? || r'.lastUsedAt.value < r.lastUsedAt.value)
  }

  /**
   The step replaces or reactivates the bootstrap key while a time is stored for it: it is an
   upsert with another digest, or of a revoked row, and no other row has that digest.
   */
  ghost predicate Clears(s: Recorder, step: Step, key: Key) {
    && step.Upsert? && step.key == key && key in s.rows && s.rows[key].lastUsedAt.Some?
    && Replaces(s.rows[key], step.digest) && !Taken(s.rows, key, step.digest)
  }

  /** The generation never goes back, and while it lasts the stored time stays or moves forward by five minutes or more. */
  ghost predicate RowMoves(r: Row, r': Row) {
    r'.generation >= r.generation && (r'.generation == r.generation ==> Forward(r, r'))
  }

  /** In one step of any kind, the stored time of a key goes back if and only if the step clears it; otherwise it moves forward. */
  lemma GoesBackExactly(s: Recorder, step: Step, key: Key)
    requires Can(s, step) && key in s.rows
    ensures key in Next(s, step).rows && RowMoves(s.rows[key], Next(s, step).rows[key])
    ensures GoesBack(s.rows[key], Next(s, step).rows[key]) <==> Clears(s, step, key)
    ensures !Clears(s, step, key) ==> Forward(s.rows[key], Next(s, step).rows[key])
  {
  }

  /** Within one generation last_used_at never moves backward: it stays, or moves forward by at least five minutes. */
  lemma {:induction false} LastUsedForward(states: seq<Recorder>, steps: seq<Step>, i: nat, j: nat, key: Key)
    requires Run(states, steps) && i <= j < |states| && key in states[i].rows
    ensures key in states[j].rows && RowMoves(states[i].rows[key], states[j].rows[key])
  {
    hide Next, Can, Inv;
    if i < j {
      LastUsedForward(states, steps, i, j - 1, key);
      GoesBackExactly(states[j - 1], steps[j - 1], key);
    }
  }

  lemma {:induction false} ForwardUnlessCleared(states: seq<Recorder>, steps: seq<Step>, i: nat, j: nat, key: Key)
    requires Run(states, steps) && i <= j < |states| && key in states[i].rows
    requires forall k :: i <= k < j ==> !Clears(states[k], steps[k], key)
    ensures key in states[j].rows && Forward(states[i].rows[key], states[j].rows[key])
  {
    hide Next, Can, Inv, Clears;
    if i < j {
      ForwardUnlessCleared(states, steps, i, j - 1, key);
      GoesBackExactly(states[j - 1], steps[j - 1], key);
    }
  }

  /** No state from i to j holds an earlier time for the key than a state before it. */
  ghost predicate NeverBack(states: seq<Recorder>, i: nat, j: nat, key: Key)
    requires i <= j < |states|
  {
    forall m, n :: i <= m <= n <= j ==>
      key in states[m].rows && key in states[n].rows && !GoesBack(states[m].rows[key], states[n].rows[key])
  }

  /** Over a run last_used_at never moves backward if and only if no step of it clears the key. */
  lemma NeverBackExactly(states: seq<Recorder>, steps: seq<Step>, i: nat, j: nat, key: Key)
    requires Run(states, steps) && i <= j < |states| && key in states[i].rows
    ensures NeverBack(states, i, j, key) <==> forall k :: i <= k < j ==> !Clears(states[k], steps[k], key)
  {
    hide Next, Can, Inv, Clears;
    if forall k :: i <= k < j ==> !Clears(states[k], steps[k], key) {
      forall m, n | i <= m <= n <= j
        ensures key in states[m].rows && key in states[n].rows && !GoesBack(states[m].rows[key], states[n].rows[key])
      {
        ForwardUnlessCleared(states, steps, i, m, key);
        ForwardUnlessCleared(states, steps, m, n, key);
      }
    } else {
      var k :| i <= k < j && Clears(states[k], steps[k], key);
      LastUsedForward(states, steps, i, k, key);
      GoesBackExactly(states[k], steps[k], key);
      var n := k + 1;
      assert GoesBack(states[k].rows[key], states[n].rows[key]);
    }
  }

  const KEY: Key := ("workspace", "key")
  const ADMITTED: Identity := Identity("workspace", "key", "a", 1)

  /** It does move backward: a bootstrap key is sampled, and then its configured digest changes. */
  lemma UpsertClearsTime() returns (states: seq<Recorder>, steps: seq<Step>)
    ensures Run(states, steps) && |steps| == 4
    ensures states[0] == NewRecorder(0, map[KEY := Row("a", 1, false, None, true)])
    ensures states[3].rows == map[KEY := Row("a", 1, false, Some(7), true)]
    ensures states[4].rows == map[KEY := Row("b", 2, false, None, true)]
    ensures GoesBack(states[3].rows[KEY], states[4].rows[KEY])
  {
    var s0 := NewRecorder(0, map[KEY := Row("a", 1, false, None, true)]);
    var s1 := Next(s0, Submit(ADMITTED, 7, false));
    assert s1.entries == map[ADMITTED := Entry(7, true, 1, 0)];
    assert Queues(s1, [ADMITTED]);
    var s2 := Next(s1, TakeDue([ADMITTED]));
    assert s2.batch == [Work(ADMITTED, 7)];
    var s3 := Next(s2, Finish(Committed));
    assert !Taken(s3.rows, KEY, "b");
    var s4 := Next(s3, Upsert(KEY, "b"));
    states := [s0, s1, s2, s3, s4];
    steps := [Submit(ADMITTED, 7, false), TakeDue([ADMITTED]), Finish(Committed), Upsert(KEY, "b")];
  }

  /** A sample never lands on a row whose generation has moved past the one it was admitted under. */
  lemma DelayedSampleIsFenced(states: seq<Recorder>, steps: seq<Step>, i: nat, j: nat, w: Work)
    requires Run(states, steps) && i <= j < |states| && KeyOf(w.identity) in states[i].rows
    requires states[i].rows[KeyOf(w.identity)].generation > w.identity.generation
    ensures !Matches(states[j].rows, w) && Update(states[j].rows, w) == states[j].rows
  {
    LastUsedForward(states, steps, i, j, KeyOf(w.identity));
  }
}
