/**
 The tool lists (cli/reference/mcp.go). Over every run the row of an instance's local server
 is the newest report: of the newest connection that reported, the one of the highest sequence.
 */
module ToolRows {
  import opened Options
  import opened Connections
  import opened Servers
  import opened ServerLaws
  import opened ServerMoves
  import opened ServerRuns

  /** The row that a first accepted tool-list report stands for, and its key. */
  ghost function Reported(s: Server, r: Request): Option<((string, string), ToolRow)>
    requires Sound(s)
  {
    if r.Post? && r.body.McpTools? && r.connectionID in s.connections &&
       Step(s, r).1.Answered? && Step(s, r).1.reply.Accepted?
    then Some(((s.connections[r.connectionID].instance, r.body.server), ToolRow(r.connectionID, r.body.sequence, r.content)))
    else None
  }

  /** The later connection, and on one connection the higher sequence. */
  predicate Newer(a: ToolRow, b: ToolRow) {
    b.connectionID < a.connectionID || (a.connectionID == b.connectionID && b.sequence < a.sequence)
  }

  /** No row is of a connection later than its instance's active one, or than the last. */
  ghost predicate RowsOK(s: Server) {
    forall key :: key in s.toolLists ==>
      && s.toolLists[key].connectionID <= s.lastID
      && (key.0 in s.live && s.live[key.0].Some? ==> s.toolLists[key].connectionID <= s.live[key.0].value)
  }

  // ---------- one request ----------

  /** An active connection is the one of before or a new one. */
  ghost predicate PointersMove(s: Server, s': Server) {
    && s.lastID <= s'.lastID
    && forall i :: i in s'.live && s'.live[i].Some? ==> (i in s.live && s.live[i] == s'.live[i]) || s.lastID < s'.live[i].value
  }

  ghost predicate Quiet(s: Server, s': Server) { s'.toolLists == s.toolLists && PointersMove(s, s') }

  lemma SameQuiet(s: Server, s': Server)
    ensures (s'.live, s'.lastID, s'.toolLists) == (s.live, s.lastID, s.toolLists) ==> Quiet(s, s')
  {
  }

  lemma LiveQuiet(s: Server, instanceID: string)
    ensures Quiet(s, Live(s, instanceID).0) && Live(s, instanceID).0.credentials == s.credentials
  {
  }

  lemma CommitKeeps(s: Server, id: nat, used: string)
    requires id in s.connections && used in s.credentials
    ensures var s' := Commit(s, id, used); (s'.live, s'.lastID, s'.toolLists) == (s.live, s.lastID, s.toolLists)
  {
  }

  lemma ConnectQuiet(s: Server, used: string, previous: Option<nat>, resume: bool, visits: seq<string>)
    requires Sound(s) && used in s.credentials
    ensures Quiet(s, ConnectAs(s, used, previous, resume, visits).0)
  {
    hide Live, Commit, Attach, WriteRenewals, Offers, Sound;
    var (s1, active) := Live(s, s.credentials[used].instanceID);
    LiveQuiet(s, s.credentials[used].instanceID);
    if active.None? {
      var s2 := Allocate(s1, used);
      CommitKeeps(s2, s2.lastID, used);
    } else {
      CommitKeeps(s1, active.value, used);
    }
  }

  lemma AddQuiet(s: Server, id: string, given: Cred, renew: bool)
    ensures Quiet(s, AddStep(s, id, given, renew).0)
  {
    hide Live, WriteRenewals;
    var s1 := Add(s, id, given).0;
    LiveQuiet(s1, given.instanceID);
  }

  lemma DueQuiet(s: Server, step: nat)
    ensures Quiet(s, DueAll(s.(now := s.now + step)))
  {
    hide Tick;
  }

  lemma ControlQuiet(s: Server, r: Request)
    requires Sound(s) && !r.Events? && !r.Post?
    ensures Quiet(s, Step(s, r).0)
  {
    hide Quiet, Live, Sound, AddStep, DueAll, Issue, DropStream, TakeFrame;
    SameQuiet(s, Step(s, r).0);
    match r
    case AddCredential(k, given, renew) => AddQuiet(s, k, given, renew);
    case Ask(instanceID, i) =>
      LiveQuiet(s, instanceID);
      SameQuiet(Live(s, instanceID).0, Step(s, r).0);
    case BreakStream(instanceID) =>
      LiveQuiet(s, instanceID);
      SameQuiet(Live(s, instanceID).0, Step(s, r).0);
    case Advance(step) => if step >= 0 { DueQuiet(s, step); }
    case Look(instanceID) => LiveQuiet(s, instanceID);
    case _ =>
  }

  /** What a report does to the rows. */
  function RowsAfter(rows: map<(string, string), ToolRow>, key: (string, string), row: ToolRow): map<(string, string), ToolRow> {
    if key !in rows || rows[key].connectionID != row.connectionID || Newer(row, rows[key]) then rows[key := row] else rows
  }

  lemma ServeRows(s: Server, id: nat, messageID: string, content: string, body: Body)
    requires id in s.connections && s.connections[id].credential in s.credentials && !body.TooLarge? && !body.Malformed?
    ensures var (s', reply) := ServeOn(s, id, messageID, content, body);
            && (s'.live, s'.lastID) == (s.live, s.lastID)
            && s'.toolLists ==
               if reply.Accepted? && body.McpTools?
               then RowsAfter(s.toolLists, (s.connections[id].instance, body.server), ToolRow(id, body.sequence, content))
               else s.toolLists
  {
    hide Serve;
  }

  lemma PostRows(s: Server, r: Request)
    requires Inv(s) && Sound(s) && r.Post?
    ensures var s' := Step(s, r).0;
            && PointersMove(s, s')
            && match Reported(s, r)
               case None => s'.toolLists == s.toolLists
               case Some((key, row)) =>
                 && key.0 in s.live && s.live[key.0] == Some(row.connectionID) && row.connectionID in s.connections
                 && s'.toolLists == RowsAfter(s.toolLists, key, row)
  {
    hide Live, ServeOn, AllHealthy, CredsOK, KeysDistinct, Judge, Authenticate, RowsAfter;
    var auth := Authenticate(s, r.key, None);
    JudgedLive(s, r.key, None);
    if auth.Authenticated? {
      var instanceID := s.credentials[auth.credentialID].instanceID;
      LiveQuiet(s, instanceID);
      if Live(s, instanceID).1 == Some(r.connectionID) && !r.body.TooLarge? && !r.body.Malformed? {
        assert LinkOK(s, r.connectionID, s.connections[r.connectionID]);
        ServeRows(s, r.connectionID, r.messageID, r.content, r.body);
      }
    }
  }

  lemma EventsQuiet(s: Server, r: Request)
    requires Sound(s) && r.Events?
    ensures Quiet(s, Step(s, r).0)
  {
    hide Sound, Authenticate, ConnectAs;
    var named := Some((r.instanceID, r.credentialID));
    JudgedLive(s, r.key, named);
    var auth := Authenticate(s, r.key, named);
    if auth.Authenticated? {
      ConnectQuiet(s, auth.credentialID, r.previous, r.resume, r.visits);
    }
  }

  /** A row changes by a newer report alone, and no row is ever of a connection still to come. */
  lemma StepRows(s: Server, r: Request)
    requires Inv(s) && Sound(s) && RowsOK(s)
    ensures var s' := Step(s, r).0;
            && RowsOK(s')
            && match Reported(s, r)
               case None => s'.toolLists == s.toolLists
               case Some((key, row)) =>
                 s'.toolLists == if key !in s.toolLists || Newer(row, s.toolLists[key]) then s.toolLists[key := row] else s.toolLists
  {
    hide Step, Sound, AllHealthy, CredsOK, KeysDistinct;
    if r.Post? {
      hide Reported;
      PostRows(s, r);
      if Reported(s, r).Some? {
        var row := Reported(s, r).value.1;
        assert LinkOK(s, row.connectionID, s.connections[row.connectionID]);
      }
    } else if r.Events? {
      EventsQuiet(s, r);
    } else {
      ControlQuiet(s, r);
    }
  }

  // ---------- every run ----------

  /** The row that request k of a run reports for a key. */
  ghost function ReportAt(states: seq<Server>, requests: seq<Request>, k: nat, key: (string, string)): Option<ToolRow>
    requires k < |requests| <= |states| && Sound(states[k])
  {
    match Reported(states[k], requests[k])
    case None => None
    case Some((at, row)) => if at == key then Some(row) else None
  }

  /** Report k is newer than every one before it, and of those up to state j none is newer. */
  ghost predicate Newest(states: seq<Server>, requests: seq<Request>, j: nat, key: (string, string), k: nat)
    requires Run(states, requests) && k < j < |states|
  {
    && ReportAt(states, requests, k, key).Some?
    && (forall i :: 0 <= i < k && ReportAt(states, requests, i, key).Some? ==>
          Newer(ReportAt(states, requests, k, key).value, ReportAt(states, requests, i, key).value))
    && (forall i :: k < i < j && ReportAt(states, requests, i, key).Some? ==>
          !Newer(ReportAt(states, requests, i, key).value, ReportAt(states, requests, k, key).value))
  }

  /** What the rows of state j hold for a key: nothing while it had no report, then the newest. */
  ghost predicate HoldsNewest(states: seq<Server>, requests: seq<Request>, j: nat, key: (string, string))
    requires Run(states, requests) && j < |states|
  {
    if key in states[j].toolLists then
      exists k: nat :: k < j && Newest(states, requests, j, key, k) &&
        ReportAt(states, requests, k, key) == Some(states[j].toolLists[key])
    else forall k :: 0 <= k < j ==> ReportAt(states, requests, k, key).None?
  }

  lemma NoRows(s: Server)
    ensures s.toolLists == map[] ==> RowsOK(s)
  {
  }

  lemma {:induction false} RunRows(states: seq<Server>, requests: seq<Request>, j: nat)
    requires Run(states, requests) && j < |states| && RowsOK(states[0])
    ensures RowsOK(states[j])
  {
    hide Inv, Step, Fresh, Sound, RowsOK, Reported;
    if j > 0 {
      RunRows(states, requests, j - 1);
      RunInv(states, requests, j - 1);
      StepRows(states[j - 1], requests[j - 1]);
    }
  }

  /**
   From a server with no rows, the row of a key is at every moment the newest of the reports
   accepted for it: of the latest connection, the highest sequence, and of equals the first.
   */
  lemma {:induction false} RowIsNewestReport(states: seq<Server>, requests: seq<Request>, j: nat, key: (string, string))
    requires Run(states, requests) && j < |states| && states[0].toolLists == map[]
    ensures HoldsNewest(states, requests, j, key)
  {
    hide Inv, Step, Fresh, Sound, RowsOK, Reported;
    if j > 0 {
      var n := j - 1;
      RowIsNewestReport(states, requests, n, key);
      NoRows(states[0]);
      RunRows(states, requests, n);
      RunInv(states, requests, n);
      StepRows(states[n], requests[n]);
      var report := ReportAt(states, requests, n, key);
      if key in states[n].toolLists {
        var k: nat :| k < n && Newest(states, requests, n, key, k) &&
          ReportAt(states, requests, k, key) == Some(states[n].toolLists[key]);
        if report.Some? && Newer(report.value, states[n].toolLists[key]) {
          assert Newest(states, requests, j, key, n);
        } else {
          assert Newest(states, requests, j, key, k);
        }
      } else if report.Some? {
        assert Newest(states, requests, j, key, n);
      }
    }
  }
}
