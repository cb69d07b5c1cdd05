/**
 The replay rule over every run: each message of a connection takes effect at most once,
 whatever endpoint it is sent to, and a retry changes nothing.
 */
module Replay {
  import opened Options
  import opened Connections
  import opened ConnectionLaws
  import opened Servers
  import opened ServerLaws
  import opened ServerLinks
  import opened ServerMoves
  import opened ServerRuns

  /** Request r is message m of connection id to a replayable endpoint, and takes effect. */
  ghost predicate TakesEffect(s: Server, r: Request, id: nat, m: string)
    requires Sound(s)
  {
    && r.Post? && r.connectionID == id && r.messageID == m && Replayable(r.body)
    && Step(s, r).1.Answered? && Step(s, r).1.reply.Accepted?
  }

  /** A message that takes effect was not in the ledger, and is recorded with its content and answer. */
  lemma EffectIsRecorded(s: Server, r: Request, id: nat, m: string)
    requires Sound(s) && TakesEffect(s, r, id, m)
    ensures id in s.connections && m !in s.connections[id].ledger
    ensures id in Step(s, r).0.connections && m in Step(s, r).0.connections[id].ledger
    ensures Step(s, r).0.connections[id].ledger[m] ==
            LedgerEntry(EndpointOf(r.body), r.content, Step(s, r).1.reply.answer)
  {
  }

  lemma {:induction false} LedgerOverRun(states: seq<Server>, requests: seq<Request>, i: nat, j: nat, id: nat, m: string)
    requires Run(states, requests) && i <= j < |states| && id in states[i].connections && m in states[i].connections[id].ledger
    ensures id in states[j].connections && m in states[j].connections[id].ledger
    ensures states[j].connections[id].ledger[m] == states[i].connections[id].ledger[m]
    decreases j
  {
    hide Inv, Step, Fresh, Sound, WhyOf, Continues, Reopened, Asked;
    if i < j {
      LedgerOverRun(states, requests, i, j - 1, id, m);
      RunMoves(states, requests, j - 1);
    }
  }

  /** Over any run a message takes effect at most once on its connection, across all replayable endpoints. */
  lemma EffectAtMostOnce(states: seq<Server>, requests: seq<Request>, i: nat, j: nat, id: nat, m: string)
    requires Run(states, requests) && i < j < |requests| && TakesEffect(states[i], requests[i], id, m)
    ensures !TakesEffect(states[j], requests[j], id, m)
  {
    hide Inv, Step, Fresh, Sound, TakesEffect;
    EffectIsRecorded(states[i], requests[i], id, m);
    LedgerOverRun(states, requests, i + 1, j, id, m);
    if TakesEffect(states[j], requests[j], id, m) {
      EffectIsRecorded(states[j], requests[j], id, m);
    }
  }

  lemma RetryServed(s: Server, id: nat, m: string, content: string, body: Body)
    requires id in s.connections && s.connections[id].credential in s.credentials && Replayable(body)
    requires m in s.connections[id].ledger
    ensures var entry := s.connections[id].ledger[m];
            ServeOn(s, id, m, content, body) ==
            (s, if entry.endpoint == EndpointOf(body) && entry.content == content then Replayed(entry.answer)
                else Refused(MessageConflict))
  {
    hide Apply;
    assert s.connections[id := s.connections[id]] == s.connections;
  }

  /**
   A message_id already recorded on a live connection: equal content to the same endpoint
   gets the recorded answer, anything else is a conflict, and the server does not change.
   */
  lemma RetryChangesNothing(s: Server, r: Request)
    requires Inv(s) && Sound(s) && r.Post? && Replayable(r.body) && r.messageID != ""
    requires Authenticate(s, r.key, None).Authenticated? && r.connectionID in s.connections
    requires s.credentials[Authenticate(s, r.key, None).credentialID].instanceID == s.connections[r.connectionID].instance
    requires !s.connections[r.connectionID].ended && s.now < s.connections[r.connectionID].leaseUntil
    requires r.messageID in s.connections[r.connectionID].ledger
    ensures var entry := s.connections[r.connectionID].ledger[r.messageID];
            Step(s, r) ==
            (s, Answered(if entry.endpoint == EndpointOf(r.body) && entry.content == r.content then Replayed(entry.answer)
                         else Refused(MessageConflict)))
  {
    hide ServeOn, KeyOwner, Healthy;
    assert LinkOK(s, r.connectionID, s.connections[r.connectionID]);
    CurrentIsLive(s, s.connections[r.connectionID].instance);
    RetryServed(s, r.connectionID, r.messageID, r.content, r.body);
  }

  /** A message rejected before it is served takes no effect: it may end an expired connection, nothing else. */
  lemma StaleChangesNothingLive(s: Server, r: Request, id: nat)
    requires Inv(s) && Sound(s) && Fresh(s, r) && r.Post? && Step(s, r).1.Rejected? && id in s.connections
    ensures id in Step(s, r).0.connections
    ensures Step(s, r).0.connections[id] == s.connections[id] ||
            (s.now >= s.connections[id].leaseUntil && Step(s, r).0.connections[id] == End(s.connections[id]))
  {
    hide ServeOn, KeyOwner, Healthy;
  }
}
