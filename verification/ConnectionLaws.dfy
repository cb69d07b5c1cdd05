/**
 What every operation on a connection keeps: the issue order, the staging limits, and
 what its open stream carries.
 */
module ConnectionLaws {
  import opened Options
  import opened Connections

  // ---------- sequences of message IDs ----------

  ghost predicate Distinct(s: seq<string>) {
    forall i, j :: 0 <= i < j < |s| ==> s[i] != s[j]
  }

  function Ids(queue: seq<Instruction>): seq<string> {
    seq(|queue|, i requires 0 <= i < |queue| => queue[i].messageID)
  }

  /** The members of s that are in keep, in the order of s. */
  function Keep(s: seq<string>, keep: set<string>): (r: seq<string>)
    ensures forall m :: m in r <==> m in s && m in keep
  {
    if s == [] then []
    else
      var rest := Keep(s[..|s| - 1], keep);
      var last := s[|s| - 1];
      assert s == s[..|s| - 1] + [last];
      if last in keep then rest + [last] else rest
  }

  function Elements(s: seq<string>): set<string> { set m | m in s }

  lemma {:induction false} KeepSame(s: seq<string>, a: set<string>, b: set<string>)
    requires forall m :: m in s ==> (m in a <==> m in b)
    ensures Keep(s, a) == Keep(s, b)
  {
    if s != [] {
      KeepSame(s[..|s| - 1], a, b);
    }
  }

  lemma KeepAppend(s: seq<string>, m: string, keep: set<string>)
    ensures Keep(s + [m], keep) == Keep(s, keep) + if m in keep then [m] else []
  {
  }

  lemma {:induction false} KeepDistinct(s: seq<string>, keep: set<string>)
    requires Distinct(s)
    ensures Distinct(Keep(s, keep))
  {
    if s != [] {
      KeepDistinct(s[..|s| - 1], keep);
      assert s[|s| - 1] !in s[..|s| - 1];
    }
  }

  // ---------- what a stream carries ----------

  /** The instructions written on stream n, in the order they were written. */
  function InstructionsOn(log: seq<Sent>, n: nat): seq<string> {
    if log == [] then []
    else
      var rest := InstructionsOn(log[..|log| - 1], n);
      var last := log[|log| - 1];
      if last.stream == n && last.event.Instruct? then rest + [last.event.messageID] else rest
  }

  lemma {:induction false} NothingOnLaterStream(log: seq<Sent>, n: nat)
    requires forall k :: 0 <= k < |log| ==> log[k].stream < n
    ensures InstructionsOn(log, n) == []
  {
    if log != [] {
      NothingOnLaterStream(log[..|log| - 1], n);
    }
  }

  predicate Open(out: Outbox) { out.stream.Some? && !out.stream.value.closed }

  /** The instructions written on the current stream. */
  function Carried(out: Outbox): seq<string>
    requires out.stream.Some?
  {
    InstructionsOn(out.log, out.stream.value.number)
  }

  // ---------- the invariant of one connection ----------

  function Asked(w: Work): seq<string> { w.order + Ids(w.queue) }

  ghost predicate Indexed(w: Work) {
    && (forall m :: m in w.order <==> m in w.issued)
    && (forall m :: m in w.issued ==> w.issued[m].messageID == m)
  }

  /** The staging limits, save for what release has still to do. */
  ghost predicate Counted(w: Work, ready: bool) {
    && (!ready ==> w.order == [])
    && (!w.firstReportStored ==> w.sessionIssued == |w.order|)
    && w.sessionIssued <= STAGING_LIMIT
    && (forall k :: 0 <= k < |w.queue| ==> !w.queue[k].reported)
  }

  ghost predicate Orderly(w: Work, ready: bool) {
    Indexed(w) && Distinct(Asked(w)) && Counted(w, ready)
  }

  /** Every event logged on stream n, in order. */
  function EventsOn(log: seq<Sent>, n: nat): seq<Event> {
    if log == [] then []
    else
      var rest := EventsOn(log[..|log| - 1], n);
      if log[|log| - 1].stream == n then rest + [log[|log| - 1].event] else rest
  }

  /** The buffer holds the last events logged on the stream, at most STREAM_BUFFER of them. */
  ghost predicate Buffered(frames: seq<Event>, events: seq<Event>) {
    |frames| <= STREAM_BUFFER && |frames| <= |events| && frames == events[|events| - |frames|..]
  }

  ghost predicate Numbered(out: Outbox) {
    && (forall k :: 0 <= k < |out.log| ==> out.log[k].stream <= out.streams)
    && (out.stream.Some? ==> out.stream.value.number == out.streams)
    && (out.stream.Some? ==> Buffered(out.stream.value.frames, EventsOn(out.log, out.stream.value.number)))
  }

  predicate Unreported(w: Work, m: string) { m in w.issued && !w.issued[m].reported }

  /** Each instruction at most once, in issue order, and every unreported one. */
  ghost predicate Covers(w: Work, carried: seq<string>) {
    && carried == Keep(w.order, Elements(carried))
    && (forall m :: Unreported(w, m) ==> m in carried)
  }

  ghost predicate Running(c: Conn) {
    && Orderly(c.work, c.readyAccepted)
    && Numbered(c.out)
    && (c.out.stream.Some? ==> !c.ended)
    && (Open(c.out) ==> Covers(c.work, Carried(c.out)))
  }

  ghost predicate Good(c: Conn) {
    Running(c) && (c.work.queue != [] ==> !MayIssue(c))
  }

  // ---------- operations that write no instruction ----------

  ghost predicate LogGrows(log: seq<Sent>, log': seq<Sent>) {
    |log| <= |log'| && log'[..|log|] == log
  }

  ghost predicate Quiet(out: Outbox, out': Outbox) {
    && out.streams == out'.streams
    && LogGrows(out.log, out'.log)
    && (forall k :: |out.log| <= k < |out'.log| ==> !out'.log[k].event.Instruct?)
    && (out'.stream.Some? ==> out.stream.Some? && out.stream.value.number == out'.stream.value.number)
    && (Open(out') ==> Open(out) && Carried(out') == Carried(out))
    && (Numbered(out) ==> Numbered(out'))
  }

  lemma QuietTransitive(a: Outbox, b: Outbox, c: Outbox)
    requires Quiet(a, b) && Quiet(b, c)
    ensures Quiet(a, c)
  {
  }

  lemma WriteQuiet(out: Outbox, e: Event)
    requires out.stream.Some? && !e.Instruct?
    ensures Quiet(out, Write(out, e))
  {
  }

  lemma HeartbeatQuiet(out: Outbox, at: Time)
    requires out.stream.Some?
    ensures Quiet(out, SendHeartbeat(out, at))
  {
  }

  lemma {:induction false} TickLoopQuiet(out: Outbox, ready: bool, lease: Time, maxAge: Time, now: Time)
    requires out.stream.Some?
    ensures Quiet(out, TickLoop(out, ready, lease, maxAge, now).out)
    decreases if HeartbeatNext(out, ready, Min(lease, maxAge))
              then Min(lease, maxAge) - out.stream.value.nextHeartbeat.value else 0
  {
    if HeartbeatNext(out, ready, Min(lease, maxAge)) {
      var at := out.stream.value.nextHeartbeat.value;
      if at <= now {
        var out1 := SendHeartbeat(out, at);
        HeartbeatQuiet(out, at);
        TickLoopQuiet(out1, ready, lease, maxAge, now);
        QuietTransitive(out, out1, TickLoop(out1, ready, lease, maxAge, now).out);
      }
    } else {
      WriteQuiet(out, Disconnect);
    }
  }

  // ---------- how an operation that opens no stream moves a connection ----------

  ghost predicate ReportsStay(w: Work, w': Work) {
    forall m :: m in w.issued ==> m in w'.issued && (w.issued[m].reported ==> w'.issued[m].reported)
  }

  predicate Reported(w: Work, m: string) { m in w.issued && w.issued[m].reported }

  /** No instruction logged since w had been reported in w. */
  ghost predicate WritesUnreported(w: Work, log: seq<Sent>, log': seq<Sent>) {
    forall k :: |log| <= k < |log'| && log'[k].event.Instruct? ==> !Reported(w, log'[k].event.messageID)
  }

  /** The current stream, while it lasts, carries what it did and then what was dispatched since. */
  ghost predicate Continues(c: Conn, c': Conn) {
    && c.work.order <= c'.work.order
    && ReportsStay(c.work, c'.work)
    && c.out.streams == c'.out.streams
    && LogGrows(c.out.log, c'.out.log) && WritesUnreported(c.work, c.out.log, c'.out.log)
    && (c'.out.stream.Some? ==> c.out.stream.Some? && c.out.stream.value.number == c'.out.stream.value.number)
    && (Open(c'.out) ==> Open(c.out) && Carried(c'.out) == Carried(c.out) + c'.work.order[|c.work.order|..])
  }

  lemma QuietContinues(c: Conn, c': Conn)
    requires Quiet(c.out, c'.out) && c.work.order == c'.work.order && ReportsStay(c.work, c'.work)
    ensures Continues(c, c')
  {
  }

  lemma LogTransitive(w: Work, w': Work, a: seq<Sent>, b: seq<Sent>, c: seq<Sent>)
    requires LogGrows(a, b) && LogGrows(b, c) && ReportsStay(w, w')
    requires WritesUnreported(w, a, b) && WritesUnreported(w', b, c)
    ensures LogGrows(a, c) && WritesUnreported(w, a, c)
  {
  }

  lemma ContinuesTransitive(a: Conn, b: Conn, c: Conn)
    requires Continues(a, b) && Continues(b, c)
    ensures Continues(a, c)
  {
  }

  // ---------- dispatch, release, issue ----------

  lemma EnlistCovers(w: Work, i: Instruction, carried: seq<string>)
    requires Indexed(w) && Covers(w, carried) && i.messageID !in w.order
    ensures Covers(Enlist(w, i), carried + [i.messageID])
  {
    var m := i.messageID;
    var before, after := Elements(carried), Elements(carried + [m]);
    KeepAppend(w.order, m, after);
    KeepSame(w.order, before, after);
  }

  lemma WriteInstruction(out: Outbox, m: string, kind: Kind)
    requires out.stream.Some? && Numbered(out)
    ensures var out' := Write(out, Instruct(m, kind));
            && Numbered(out') && out'.streams == out.streams
            && out'.stream.Some? && out'.stream.value.number == out.stream.value.number
            && (out'.log == out.log || out'.log == out.log + [Sent(out.stream.value.number, Instruct(m, kind))])
            && (Open(out') ==> Open(out) && Carried(out') == Carried(out) + [m])
  {
  }

  lemma DispatchContinues(c: Conn, i: Instruction)
    requires Running(c) && i.messageID !in c.work.order
    ensures Continues(c, Dispatch(c, i))
    ensures Numbered(Dispatch(c, i).out)
    ensures Open(Dispatch(c, i).out) ==> Covers(Dispatch(c, i).work, Carried(Dispatch(c, i).out))
  {
    assert Dispatch(c, i).work.order[|c.work.order|..] == [i.messageID];
    if c.out.stream.Some? {
      WriteInstruction(c.out, i.messageID, i.kind);
      if Open(Dispatch(c, i).out) {
        EnlistCovers(c.work, i, Carried(c.out));
      }
    }
  }

  /** The work after an instruction moved from the front of the queue into the issue order. */
  lemma FrontEnlisted(w: Work, ready: bool)
    requires Orderly(w, ready) && w.queue != [] && ready && (w.firstReportStored || w.sessionIssued < STAGING_LIMIT)
    ensures var i := w.queue[0];
            var w' := Enlist(w.(queue := w.queue[1..]), i);
            && i.messageID !in w.order
            && Asked(w') == Asked(w)
            && Orderly(w', ready)
  {
    var i := w.queue[0];
    var w' := Enlist(w.(queue := w.queue[1..]), i);
    assert Ids(w.queue) == [i.messageID] + Ids(w.queue[1..]);
    assert Asked(w') == Asked(w);
    assert Asked(w)[|w.order|] == i.messageID;
    assert forall k :: 0 <= k < |w.order| ==> Asked(w)[k] == w.order[k];
  }

  lemma ReleaseOne(c: Conn)
    requires Running(c) && c.work.queue != [] && MayIssue(c)
    ensures var c' := ReleaseFront(c); Running(c') && Continues(c, c') && Asked(c'.work) == Asked(c.work)
  {
    FrontEnlisted(c.work, c.readyAccepted);
    var c0 := c.(work := c.work.(queue := c.work.queue[1..]));
    assert Running(c0) by { ShorterQueue(c.work, c.readyAccepted); }
    DispatchContinues(c0, c.work.queue[0]);
  }

  lemma ShorterQueue(w: Work, ready: bool)
    requires Orderly(w, ready) && w.queue != []
    ensures Orderly(w.(queue := w.queue[1..]), ready)
  {
    var w' := w.(queue := w.queue[1..]);
    forall i, j | 0 <= i < j < |Asked(w')|
      ensures Asked(w')[i] != Asked(w')[j]
    {
      var i', j' := if i < |w.order| then i else i + 1, if j < |w.order| then j else j + 1;
      assert Asked(w')[i] == Asked(w)[i'] && Asked(w')[j] == Asked(w)[j'];
    }
  }

  lemma {:induction false} ReleaseKeeps(c: Conn)
    requires Running(c)
    ensures Good(Release(c)) && Continues(c, Release(c)) && Asked(Release(c).work) == Asked(c.work)
    decreases |c.work.queue|
  {
    if c.work.queue != [] && MayIssue(c) {
      ReleaseOne(c);
      ReleaseKeeps(ReleaseFront(c));
      ContinuesTransitive(c, ReleaseFront(c), Release(c));
    } else {
      QuietContinues(c, c);
    }
  }

  lemma QueueLonger(w: Work, ready: bool, i: Instruction)
    requires Orderly(w, ready) && i.messageID !in Asked(w) && !i.reported
    ensures var w' := w.(queue := w.queue + [i]);
            Asked(w') == Asked(w) + [i.messageID] && Orderly(w', ready)
  {
  }

  /** An instruction asked for under a new message_id goes to the end of the order asked. */
  lemma IssueKeeps(c: Conn, i: Instruction)
    requires Good(c) && i.messageID !in Asked(c.work) && !i.reported
    ensures Good(Issue(c, i)) && Continues(c, Issue(c, i))
    ensures Asked(Issue(c, i).work) == Asked(c.work) + [i.messageID]
  {
    var queued := c.(work := c.work.(queue := c.work.queue + [i]));
    QueueLonger(c.work, c.readyAccepted, i);
    QuietContinues(c, queued);
    assert Running(queued);
    if MayIssue(c) {
      assert c.work.queue == [] && queued.work.queue == [i];
      assert ReleaseFront(queued) == Issue(c, i);
      ReleaseOne(queued);
      ContinuesTransitive(c, queued, Issue(c, i));
    }
  }

  // ---------- reports ----------

  lemma MarkKeeps(c: Conn, m: string)
    requires Good(c) && m in c.work.issued
    ensures var c' := c.(work := MarkReported(c.work, m)); Good(c') && Continues(c, c') && Asked(c'.work) == Asked(c.work)
  {
  }

  lemma SessionStatusKeeps(c: Conn, messageID: string, report: Body)
    requires Good(c) && report.SessionStatus?
    ensures var c' := ApplySessionStatus(c, messageID, report).0;
            Good(c') && Continues(c, c') && Asked(c'.work) == Asked(c.work)
  {
    var c' := ApplySessionStatus(c, messageID, report).0;
    if c' == c {
      QuietContinues(c, c);
    } else {
      var c1 := c.(work := MarkReported(c.work, report.requestID));
      MarkKeeps(c, report.requestID);
      if !c1.work.firstReportStored {
        var c2 := c1.(work := c1.work.(firstReportStored := true));
        assert Running(c2);
        QuietContinues(c1, c2);
        ReleaseKeeps(c2);
        ContinuesTransitive(c1, c2, c');
        ContinuesTransitive(c, c1, c');
      }
    }
  }

  lemma AdmitKeeps(c: Conn, env: Env, messageID: string)
    requires Good(c) && !c.readyAccepted
    ensures var c' := Release(Admit(c, env, messageID));
            Good(c') && Continues(c, c') && Asked(c'.work) == Asked(c.work)
  {
    var c1 := Admit(c, env, messageID);
    assert Quiet(c.out, c1.out);
    QuietContinues(c, c1);
    assert Running(c1);
    ReleaseKeeps(c1);
    ContinuesTransitive(c, c1, Release(c1));
  }

  lemma ReadyKeeps(c: Conn, env: Env, messageID: string, tooOld: bool)
    requires Good(c) && (c.readyAccepted ==> c.readyMessageID != "")
    ensures var c' := ApplyReady(c, env, messageID, tooOld).0;
            Good(c') && Continues(c, c') && Asked(c'.work) == Asked(c.work)
  {
    var (c', reply) := ApplyReady(c, env, messageID, tooOld);
    if reply.Accepted? {
      AdmitKeeps(c, env, messageID);
    } else {
      QuietContinues(c, c');
    }
  }

  /** Every accepted or refused upstream message keeps the connection good and the order asked. */
  lemma ApplyKeeps(c: Conn, env: Env, messageID: string, body: Body)
    requires Good(c) && Replayable(body) && (c.readyAccepted ==> c.readyMessageID != "")
    ensures var c' := Apply(c, env, messageID, body).0;
            Good(c') && Continues(c, c') && Asked(c'.work) == Asked(c.work)
  {
    hide TooOld, Continues;
    var c' := Apply(c, env, messageID, body).0;
    match body
    case Ready(v) => ReadyKeeps(c, env, messageID, TooOld(v, env.minVersion));
    case SessionStatus(_, _, _, _) => SessionStatusKeeps(c, messageID, body);
    case ToolStatus(_, _, _, _, _, _, _, _, _) =>
      if c' != c {
        MarkKeeps(c, body.requestID);
      } else {
        QuietContinues(c, c');
      }
    case Beat(_) => QuietContinues(c, c');
    case ProtocolError => QuietContinues(c, c');
    case McpTools(_, _) => QuietContinues(c, c');
  }

  // ---------- a new stream ----------

  function UnreportedSet(w: Work): set<string> { set m | m in w.issued && !w.issued[m].reported }

  lemma {:induction false} ResendWrites(out: Outbox, w: Work, k: nat)
    requires Indexed(w) && k <= |w.order| && out.stream.Some? && Numbered(out)
    requires Open(out) ==> Carried(out) == Keep(w.order[..k], UnreportedSet(w))
    ensures var out' := ResendFrom(out, w, k);
            && Numbered(out') && out'.stream.Some? && out'.streams == out.streams
            && LogGrows(out.log, out'.log) && WritesUnreported(w, out.log, out'.log)
            && (Open(out') ==> Carried(out') == Keep(w.order, UnreportedSet(w)))
    decreases |w.order| - k
  {
    if k == |w.order| {
      assert w.order[..k] == w.order;
    } else {
      var i := w.issued[w.order[k]];
      assert w.order[..k + 1] == w.order[..k] + [i.messageID];
      KeepAppend(w.order[..k], i.messageID, UnreportedSet(w));
      if i.reported {
        ResendWrites(out, w, k + 1);
      } else {
        var out1 := Write(out, Instruct(i.messageID, i.kind));
        WriteInstruction(out, i.messageID, i.kind);
        ResendWrites(out1, w, k + 1);
        LogTransitive(w, w, out.log, out1.log, ResendFrom(out1, w, k + 1).log);
      }
    }
  }

  lemma KeptCovers(w: Work)
    requires Indexed(w)
    ensures Covers(w, Keep(w.order, UnreportedSet(w)))
  {
    var kept := Keep(w.order, UnreportedSet(w));
    KeepSame(w.order, UnreportedSet(w), Elements(kept));
  }

  /** A resumed stream starts with exactly the instructions unreported when it started, in issue order. */
  lemma AttachKeeps(c: Conn, now: Time, resumed: bool)
    requires Good(c) && !c.ended && (!resumed ==> c.work.order == [])
    ensures var c' := Attach(c, now, resumed);
            && Good(c') && c'.work == c.work
            && LogGrows(c.out.log, c'.out.log) && WritesUnreported(c.work, c.out.log, c'.out.log)
            && c'.out.streams == c.out.streams + 1
            && c'.out.stream.Some? && c'.out.stream.value.number == c'.out.streams
            && (Open(c'.out) ==> Carried(c'.out) == Keep(c.work.order, UnreportedSet(c.work)))
  {
    var c' := Attach(c, now, resumed);
    var started := OpenStream(c.out, now);
    NothingOnLaterStream(c.out.log, started.streams);
    var out1 := Write(started, Connected(resumed));
    WriteQuiet(started, Connected(resumed));
    assert Open(out1) ==> Carried(out1) == [];
    if resumed {
      var out2 := if c.readyAccepted then SendHeartbeat(out1, now) else out1;
      if c.readyAccepted {
        HeartbeatQuiet(out1, now);
        QuietTransitive(started, out1, out2);
      }
      assert Quiet(started, out2);
      assert c.work.order[..0] == [];
      ResendWrites(out2, c.work, 0);
      LogTransitive(c.work, c.work, c.out.log, out2.log, c'.out.log);
    }
    KeptCovers(c.work);
  }

  lemma {:induction false} RenewalsQuiet(out: Outbox, offers: seq<string>)
    ensures Quiet(out, WriteRenewals(out, offers))
    decreases |offers|
  {
    if offers != [] && out.stream.Some? {
      var out1 := Write(out, Renew(offers[0]));
      WriteQuiet(out, Renew(offers[0]));
      RenewalsQuiet(out1, offers[1..]);
      QuietTransitive(out, out1, WriteRenewals(out, offers));
    }
  }

  /** Any change of the stream side that writes no instruction keeps the connection good. */
  lemma QuietKeeps(c: Conn, c': Conn)
    requires Good(c) && Quiet(c.out, c'.out) && c'.work == c.work && c'.readyAccepted == c.readyAccepted
    requires c'.out.stream.Some? ==> !c'.ended
    ensures Good(c') && Continues(c, c')
  {
  }

  lemma TickKeeps(c: Conn, now: Time, maxStreamAge: int)
    requires Good(c)
    ensures var c' := Tick(c, now, maxStreamAge); Good(c') && Continues(c, c') && c'.work == c.work
  {
    if Open(c.out) {
      TickLoopQuiet(c.out, c.readyAccepted, c.leaseUntil, c.out.stream.value.started + maxStreamAge, now);
    }
    QuietKeeps(c, Tick(c, now, maxStreamAge));
  }
}
