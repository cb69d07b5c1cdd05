# Tetral: verified models of five state machines

This project models five parts of Tetral that keep state over long runs, and proves what they keep.

* **The connection protocol server** (`cli/reference`): leases, stream resume, ready and heartbeats, staging of at most
  64 instructions, the replay ledger, resend on resume, credential renewal and the clock that makes things due.
  `Connections`, `Servers` and their laws give the state machine; `ConnectionObject` and `ServerObject` are the objects
  its handlers update under the mutex, proved to be steps of that machine. `Leases`, `Replay`, `Reports`, `Renewals`,
  `ServerClock` and `ToolRows` hold what is true of every run, `ServerWitnesses` runs that break a stated rule, and
  `Versions` and `SemanticVersions` the comparison of client versions.
* **The issuer key cache** (`internal/auth/assertion_verifier.go`): a bounded, revisioned cache with single-flight
  refresh. `Issuer*` treats each critical section as a step of any number of concurrent calls and each key load as an
  arbitrary outcome.
* **The API-key usage recorder** (`internal/auth/api_key_usage.go`): a bounded table, an oldest-first batch scheduler
  and a guarded row update. `Usage*`.
* **Authority lineage** (`internal/auth/policy.go`, `authority_resolver.go`, `key_issuance.go`, `principal.go`): policy
  import, admission, token issue and key issuance over revisioned rows. `Principals`, `Policies`, `Policy*`, `Issuance`,
  `Authority*`, `Lineages`.
* **The protected transport** (`internal/blob/protected_transport.go`): generations of TLS trust of which one is active
  and at most one drains. `Transport*`.

Each part has the same layers: functions on values that say what every operation does, lemmas that every step keeps an
invariant, theorems over whole runs (`states` and the requests or steps between them), and classes whose methods update
fields in place, loops included, and are proved to do what the functions say.

## Assumptions

* The message ID of a new instruction is new on its connection, and no two credentials share a connection key
  (`ServerLaws.Fresh`). IDs of new tokens, keys and calls are new.
* Clocks never go back. Times are nanoseconds; integers are unbounded except where `Versions` parses int64.
* Uniqueness of digests, row locks and isolation are the database's: each transaction is one step. The lock function, the
  lookups and the triggers are modelled from `internal/storage/postgresql_auth_schema.go`.

## Where the code and a stated rule differ

* A lease can move earlier while the credential is unchanged: `ServerWitnesses.LeaseCanMoveEarlier` is such a run, and
  `Leases.LeaseChangesOnlyByGrant` says exactly when a request does it, by the server before the request.
* Two clock advances can differ from one: `ServerWitnesses.OverflowBreaksAdditivity` is such a run.
  `StreamClock.TickTwiceExactly`, for a stream, and `ServerClock.AdvanceTwice`, for the server, say exactly when they
  agree, by the state before either.
* A prerelease identifier made of a hyphen before digits is read as a number;
  `SemanticVersions.OlderIsPrecedenceExactlyOnPlain` says exactly which versions compare as section 11 of Semantic
  Versioning 2.0.0 demands.
* `last_used_at` is documented never to move backward, but replacing or reactivating a bootstrap key clears it
  (`internal/auth/store.go:221-231`): `UsageLaws.UpsertClearsTime` is such a run. `UsageLaws.NeverBackExactly` says it
  never moves backward exactly in the runs without such a step, `UsageLaws.GoesBackExactly` which steps those are, and
  within one usage generation it is monotone.
* The comparison of operation lists accepts different lists when the first repeats an operation. Stored lists never do,
  so issuance is not affected; `Principals.DecidesExactlyWithoutRepetition` is the equivalence.

## Model

| member | source | states |
|---|---|---|
| `ServerRuns.OpenStreamCarries` | cli/reference/server.go:215-226 | in every run, the instructions written on an open stream are those unreported when it opened, in issue order, followed by those dispatched since |
| `ServerRuns.OpenStreamComplete` | cli/reference/ledger.go:192-229 | in every reachable state an open stream carries each instruction at most once, in issue order, and every issued instruction without a final report |
| `ServerRuns.NeverAfterReport` | cli/reference/tools.go:37-40 | once an instruction has its final report, no later event of its connection, on any stream, writes it again |
| `ServerRuns.IssuedThenQueuedIsAsked` | cli/reference/ledger.go:161-217 | on every connection the issue order followed by the queue is exactly the order in which instructions were asked for |
| `ServerRuns.StagingLimits` | cli/reference/ledger.go:161-217 | nothing is issued before ready is accepted, at most 64 instructions before the first Session report is stored, and the queue is nonempty only while one of these limits holds |
| `ServerRuns.NewServerInv` | cli/reference/reference.go:107-116 | a new server satisfies the invariant, so runs can start from it |
| `ServerRuns.RunInv` | cli/reference/server.go:360-462 | the invariant of credentials, leases, streams, staging and live pointers holds in every reachable state |
| `ServerRuns.RunExtends` | cli/reference/server.go:164-229 | any request with fresh IDs can follow any run: no step needs more than the invariant gives |
| `ServerRuns.RunMoves` | cli/reference/server.go:360-462 | every step moves every connection lawfully: the ledger and the reports only grow, an ended connection never changes, and its stream continues or is reopened with exactly the unreported instructions |
| `ServerMoves.StepKeeps` | cli/reference/server.go:164-462 | one step of any kind keeps the invariant and moves every connection lawfully |
| `ServerMoves.JudgedLive` | cli/reference/leases.go:103-129 | an authenticated request carries the key of a credential that is neither revoked nor expired and has time left |
| `ServerLinks.StepLinked` | cli/reference/leases.go:141-210 | every step keeps each connection tied to a non-pending credential of its instance, its lease within 45 s of now, and its instance's live pointer naming it exactly when it has not ended |
| `Leases.LiveExactlyWhenNamed` | cli/reference/leases.go:141-169 | in every reachable state a connection is not ended exactly when its instance's live pointer names it, and its lease ends at most 45 s after now |
| `Leases.NoUnexpiredReplaced` | cli/reference/leases.go:181-210 | an events request that opens a new connection finds no unexpired connection of its instance |
| `Leases.ResumeNamesLive` | cli/reference/leases.go:181-210 | a resumed stream belongs to the connection the request names, whose lease still lasts |
| `Leases.LeaseChangesOnlyByGrant` | cli/reference/server.go:633-638 | after creation a lease changes exactly by a ready or heartbeat that renews it, to 45 s from now or the credential's expiry if sooner; it moves earlier if and only if such a request comes while that credential expires before the old lease end |
| `Leases.LeaseNeverEarlier` | cli/reference/server.go:674-679 | a lease that is within its credential's expiry never moves earlier while the credential is unchanged |
| `Leases.GrantsWithinExpiry` | cli/reference/leases.go:171-179 | every lease granted is within the credential's expiry |
| `Leases.NewLeaseWithinExpiry` | cli/reference/leases.go:181-210 | a new connection uses the credential of its request and its lease ends 45 s from now or at that credential's expiry, whichever is sooner |
| `Leases.RenewsExactly` | cli/reference/server.go:621-679 | which ready or heartbeat is first accepted, by guards on the server before it: it reaches the live connection under a new message ID, the credential has time left, and it is the first ready, of a version not too old, or a heartbeat above the last accepted |
| `ServerWitnesses.LeaseCanMoveEarlier` | cli/reference/renewal.go:48-59 | a run from a new server in which a lease moves earlier with the credential unchanged: after a renewal to a credential with 20 s left, the next heartbeat cuts a 45 s lease |
| `Replay.EffectIsRecorded` | cli/reference/ledger.go:38-52 | a message that takes effect was not in the ledger before and is recorded with its endpoint, content and answer |
| `Replay.EffectAtMostOnce` | cli/reference/server.go:416-448 | over any run each message ID takes effect at most once on its connection, across all replayable endpoints |
| `Replay.RetryChangesNothing` | cli/reference/server.go:416-448 | on a live connection a recorded message ID with equal content at the same endpoint gets the recorded answer, any other content or endpoint is a conflict, and in both cases nothing changes, the lease included |
| `Replay.StaleChangesNothingLive` | cli/reference/server.go:392-421 | a message rejected before it is served changes no connection, save that an expired one may be ended |
| `Reports.ReportedIffFinal` | cli/reference/tools.go:28-42 | over a whole run an instruction is reported if and only if a report that ends it was accepted: a Session report, a tool control result, or an execution result that is not running |
| `Reports.ReportedExactly` | cli/reference/server.go:692-712 | in any one step of any kind an instruction becomes reported exactly by such a report, and nothing makes it unreported |
| `Reports.AcceptedInOrder` | cli/reference/server.go:621-681 | over any run a connection accepts ready at most once and heartbeats only with increasing numbers |
| `Reports.HandshakeOverRun` | cli/reference/server.go:621-638 | once ready is accepted or refused for its version that never changes, and the accepted heartbeat number never goes back |
| `Reports.RefusedLeavesNoTrace` | cli/reference/server.go:433-440 | a refused message leaves its connection as it is, save that a ready of too old a version is remembered |
| `Reports.PostTouches` | cli/reference/server.go:416-448 | an upstream message changes only the live connection it names, as serving it says, and at most ends an expired one |
| `Reports.OthersLeaveAlone` | cli/reference/server.go:100-279 | no other step touches ledger, lease, ready or heartbeat number of a connection, nor its instructions unless one is asked for |
| `Renewals.FetchedOnce` | cli/reference/renewal.go:61-87 | over a whole run the key of a pending credential is returned by at most one fetch |
| `Renewals.PendingOpensStreamsOnly` | cli/reference/leases.go:103-129 | a pending credential authenticates nothing before its fetch, and only events requests after it |
| `Renewals.FirstUseCommits` | cli/reference/renewal.go:48-59 | the first accepted events request of a pending credential makes it active, moves the connection to it and revokes the credential it replaces |
| `Renewals.DeadNeverAuthenticates` | cli/reference/leases.go:103-129 | no credential that is revoked, marked expired or past its expiry ever authenticates again in any later run |
| `Renewals.CredsOverRun` | cli/reference/renewal.go:15-87 | over a run a credential keeps its instance and expiry, never returns to pending or from revoked or expired, and a fetched key stays as it is |
| `ServerClock.AdvanceTwice` | cli/reference/server.go:100-155 | with no request between, advancing by a and then by b gives the same server, connections and event logs included, as advancing by a + b, if and only if no open stream lacks room for the heartbeats due by the first advance while more of it falls due by the second |
| `ServerWitnesses.OverflowBreaksAdditivity` | cli/reference/server.go:33-47 | a run from a new server to a full buffer, after which advancing by 15 s and then 30 s differs from advancing by 45 s |
| `ServerClock.AdvanceLeavesNothingOverdue` | cli/reference/control.go:471-489 | after any advance no open stream has an overdue lease end, age limit or heartbeat |
| `StreamClock.TickExact` | cli/reference/server.go:114-155 | the heartbeats a tick writes are exactly those due strictly before both the lease end and the age limit, in order, followed by the disconnect or the end of the connection if that is due |
| `StreamClock.TickTwice` | cli/reference/server.go:114-155 | two ticks equal one tick to the later time if and only if the first did not overflow the buffer with something more falling due |
| `StreamClock.TickTwiceExactly` | cli/reference/server.go:114-155 | two ticks of an open stream equal one if and only if, as the stream is before either, its lease or age ends by the first, or the heartbeats due by the first find room, or nothing more falls due by the second |
| `StreamClock.TickTwiceWithRoom` | cli/reference/server.go:31-47 | with room in the buffer for the heartbeats due, two ticks are one |
| `StreamClock.TickLeavesNothingOverdue` | cli/reference/server.go:114-155 | after a tick an open stream has nothing due |
| `StreamClock.RoomNeverOverflows` | cli/reference/server.go:31-47 | a stream with room for the heartbeats due does not overflow |
| `StreamClock.BeatsDueExactly` | cli/reference/server.go:135-153 | the heartbeats counted as due are exactly those whose times, one interval apart, are not after now and strictly before the limit |
| `ConnectionLaws.ApplyKeeps` | cli/reference/server.go:614-714 | every ready, heartbeat, Session or tool report keeps a connection's streams, staging and reports in order |
| `ConnectionLaws.IssueKeeps` | cli/reference/ledger.go:161-168 | asking for an instruction under a new message ID puts it at the end of the order asked and keeps the staging limits |
| `ConnectionLaws.ReleaseKeeps` | cli/reference/ledger.go:211-217 | releasing staged instructions writes them once each, in order, and stops exactly at a limit |
| `ConnectionLaws.AttachKeeps` | cli/reference/server.go:215-226 | a new stream of a resumed connection starts with exactly the unreported instructions, in issue order |
| `ConnectionLaws.TickKeeps` | cli/reference/server.go:114-155 | the clock writes no instruction and keeps the connection in order |
| `ConnectionObject.Connection.Send` | cli/reference/server.go:33-47 | a frame is queued and logged while the stream is open and has room; a full buffer closes the stream |
| `ConnectionObject.Connection.OpenStream` | cli/reference/server.go:62-74 | the new stream becomes current under the next number |
| `ConnectionObject.Connection.SendHeartbeat` | cli/reference/server.go:88-94 | the next heartbeat number is written and the one after it is due one interval after the time this one was due |
| `ConnectionObject.Connection.EndConnection` | cli/reference/leases.go:155-169 | an ended connection has no stream and stays as it is |
| `ConnectionObject.Connection.Tick` | cli/reference/server.go:114-155 | the loop, which ends because each pass moves the next heartbeat forward, does exactly what is due in the order of the times |
| `ConnectionObject.Connection.Dispatch` | cli/reference/ledger.go:194-207 | the instruction joins the issue order and is written on the current stream if there is one |
| `ConnectionObject.Connection.Issue` | cli/reference/ledger.go:161-168 | an instruction is dispatched at once unless a limit holds; then it waits at the end of the queue |
| `ConnectionObject.Connection.Release` | cli/reference/ledger.go:211-217 | the loop dispatches from the front of the queue until a limit holds or the queue is empty |
| `ConnectionObject.Connection.Resend` | cli/reference/ledger.go:221-229 | the loop writes the unreported instructions in issue order |
| `ConnectionObject.Connection.Attach` | cli/reference/server.go:215-226 | the locked part of an accepted events request, up to the renewal offers |
| `ConnectionObject.Connection.OfferRenewals` | cli/reference/renewal.go:25-46 | the loop writes one offer for each pending credential, in the order visited |
| `ConnectionObject.Connection.AdmitReady` | cli/reference/server.go:637-641 | an accepted ready records its message ID, grants the lease and makes the first heartbeat due one interval later on the current stream |
| `ConnectionObject.Connection.Ready` | cli/reference/server.go:621-650 | a second ready, an old version and a credential without time left are refused; an accepted ready grants the lease, starts the heartbeats and releases what was staged |
| `ConnectionObject.Connection.Beat` | cli/reference/server.go:659-683 | a heartbeat number above the last one accepted renews the lease, any other is refused |
| `ConnectionObject.Connection.SessionReport` | cli/reference/server.go:685-714 | a stored Session report marks its instruction reported and, if it is the first, lifts the staging limit |
| `ConnectionObject.Connection.ToolReport` | cli/reference/tools.go:28-58 | a tool report that answers its instruction marks it reported |
| `ConnectionObject.Connection.Serve` | cli/reference/server.go:416-448 | a recorded message ID is replayed or refused; a new one is applied and, if accepted, recorded |
| `ServerObject.ReferenceServer.Handle` | cli/reference/server.go:164-462 | one request, control or clock advance on the objects is exactly one step of the state machine, and keeps its invariant |
| `ServerObject.ReferenceServer.Authenticate` | cli/reference/leases.go:103-129 | the loop over the credentials finds the owner of the key and judges it: not fetched, not the named one, revoked, expired, pending outside an events request |
| `ServerObject.ReferenceServer.Live` | cli/reference/leases.go:141-153 | the instance's connection while its lease lasts; one whose lease is over is ended |
| `ServerObject.ReferenceServer.EndConnection` | cli/reference/leases.go:155-169 | the connection ends and the live pointer that names it is cleared |
| `ServerObject.ReferenceServer.CommitRenewal` | cli/reference/renewal.go:48-59 | the pending credential becomes active and the connection's, and its predecessor is revoked |
| `ServerObject.ReferenceServer.ConnectAs` | cli/reference/leases.go:181-210 | a new connection if none is live, the live one if the request names and resumes it, otherwise a refusal |
| `ServerObject.ReferenceServer.PendingOffers` | cli/reference/renewal.go:36-46 | the loop collects the pending credentials offered on this connection |
| `ServerObject.ReferenceServer.FetchCredential` | cli/reference/renewal.go:61-87 | the key is assigned if need be and returned once |
| `ServerObject.ReferenceServer.ReplaceToolRow` | cli/reference/mcp.go:42-60 | a tool-list report replaces its row if the row is another connection's or older |
| `ToolRows.RowIsNewestReport` | cli/reference/mcp.go:42-60 | from a server without rows, the row of an instance's local server is at every moment of a run the newest report accepted for it: of the latest connection, the highest sequence, and of equals the first; there is none while nothing was reported |
| `ToolRows.StepRows` | cli/reference/mcp.go:50-56 | in any one step a row changes exactly by a first accepted report that is of a later connection or of a higher sequence on the same one |
| `ServerObject.ReferenceServer.PostAs` | cli/reference/server.go:360-448 | size, form, connection and liveness are checked in this order before the message is served |
| `ServerObject.ReferenceServer.OfferRenewal` | cli/reference/renewal.go:15-34 | the offer names the live connection and the credential it will replace |
| `ServerObject.ReferenceServer.AddCredential` | cli/reference/leases.go:63-84 | a new credential of a named instance, offered at once if asked |
| `ServerObject.ReferenceServer.SetState` | cli/reference/control.go:176-211 | a credential is revoked or marked expired |
| `ServerObject.ReferenceServer.Flush` | cli/reference/server.go:246-262 | the writer of a current stream takes its frames in order |
| `ServerObject.ReferenceServer.Ask` | cli/reference/control.go:213-247 | an instruction asked for on the live connection is issued or staged |
| `ServerObject.ReferenceServer.BreakStream` | cli/reference/control.go:451-469 | the live connection loses its stream and keeps its lease |
| `ServerObject.ReferenceServer.Lost` | cli/reference/server.go:271-279 | a stream whose client went away is dropped only if it is still the current one |
| `ServerObject.ReferenceServer.Due` | cli/reference/server.go:100-108 | every connection is ticked once, whatever the order in which the map is visited |
| `ServerObject.ReferenceServer.Advance` | cli/reference/control.go:471-489 | the clock only moves forward and what it makes due is done |
| `Versions.ReadVersion` | cli/reference/leases.go:223-242 | the loop reads core and prerelease; a part that is no number leaves it and the later ones 0 |
| `Versions.PreOlder` | cli/reference/leases.go:253-277 | the loop finds the first identifier that differs, numbers below texts, and the shorter list below the longer |
| `Versions.Older` | cli/reference/leases.go:245-277 | the comparison decides the order defined on what is read |
| `Versions.OlderIsStrictOrder` | cli/reference/leases.go:245-277 | on all texts the comparison is irreflexive, asymmetric and transitive |
| `SemanticVersions.OlderIsPrecedence` | cli/reference/leases.go:218-277 | on rendered versions whose numbers fit int64 and whose identifiers are decimals or hold a letter, it is the precedence of section 11 of Semantic Versioning 2.0.0 |
| `SemanticVersions.OlderIsPrecedenceExactlyOnPlain` | cli/reference/leases.go:218-277 | a version compares with every such version as section 11 says if and only if it is one itself |
| `SemanticVersions.HyphenDigitsMisread` | cli/reference/leases.go:264-268 | the identifier of 1.0.0--1 is read as a number, against section 11 |
| `UsageLaws.NewRecorderInv` | internal/auth/api_key_usage.go:93-97 | a new recorder satisfies the invariant |
| `UsageLaws.ClaimedWithin32` | internal/auth/api_key_usage.go:167-246 | once pending and due, an identity is claimed within 32 passes, whatever is submitted meanwhile |
| `UsageLaws.ClaimedInTime` | internal/auth/api_key_usage.go:211-246 | with fewer than 128 n entries ahead of it, one of the next n passes claims a waiting identity |
| `UsageLaws.MissedPass` | internal/auth/api_key_usage.go:220-246 | a pass that misses a waiting identity takes 128 entries from ahead of it and puts none there |
| `UsageLaws.StepWaits` | internal/auth/api_key_usage.go:167-199 | no step puts an entry ahead of a waiting identity |
| `UsageLaws.ClaimedExactly` | internal/auth/api_key_usage.go:220-238 | a pass claims exactly the due identities with fewer than 128 due identities ahead of them |
| `UsageLaws.ClaimsFiveMinutesApart` | internal/auth/api_key_usage.go:211-246 | over the recorder's whole life two claims of one identity are at least five minutes apart, forgetting and re-creation included |
| `UsageLaws.ClaimCarriesNewest` | internal/auth/api_key_usage.go:184-190 | a claim carries the newest observation that reached the entry since it was created, and one that did reach it |
| `UsageLaws.TableBounded` | internal/auth/api_key_usage.go:191-198 | the table never holds more than 4096 identities |
| `UsageLaws.SubmissionsAccounted` | internal/auth/api_key_usage.go:167-199 | over any run every submission is stored or counted in exactly one of the capacity, contended and closed counters |
| `UsageLaws.StoredMeansPending` | internal/auth/api_key_usage.go:184-198 | a stored submission leaves its identity pending with an observation at least as new; one that is not stored changes no entry |
| `UsageLaws.SamplesAccounted` | internal/auth/api_key_usage.go:252-287 | over any run every claimed sample is still in the batch, counted once, abandoned by a cancelled worker, or committed without a matching row |
| `UsageLaws.LastUsedForward` | internal/auth/api_key_usage.go:30-39 | over any run, within one generation of a key last_used_at stays or moves forward by at least five minutes, and the generation never goes back |
| `UsageLaws.GoesBackExactly` | internal/auth/store.go:209-231 | in any one step last_used_at of a key goes back if and only if the step replaces or reactivates a bootstrap key that has one; otherwise it stays or moves forward by at least five minutes |
| `UsageLaws.NeverBackExactly` | internal/auth/store.go:177-231 | over any run last_used_at of a key never moves backward if and only if no step of the run is such a replacement or reactivation |
| `UsageLaws.UpsertClearsTime` | internal/auth/store.go:221-231 | a run from a new recorder in which a sampled bootstrap key loses its last_used_at when its configured digest changes |
| `UsageLaws.DelayedSampleIsFenced` | internal/storage/postgresql_auth_schema.go:163-178 | a sample never lands on a row whose generation has moved past the one it was admitted under |
| `UsageObject.UsageRecorder.Submit` | internal/auth/api_key_usage.go:167-199 | one submission as it updates the map and the counters |
| `UsageObject.UsageRecorder.Sift` | internal/auth/api_key_usage.go:220-229 | the first loop forgets what is neither suppressed nor pending and collects exactly what is due |
| `UsageObject.Sort` | internal/auth/api_key_usage.go:230-235 | the due identities in the order of eligibility, then of insertion |
| `UsageObject.UsageRecorder.Claim` | internal/auth/api_key_usage.go:239-245 | the last loop takes the samples of the claimed identities and suppresses them |
| `UsageObject.UsageRecorder.TakeDue` | internal/auth/api_key_usage.go:211-246 | a whole pass is the step of the table for the queue of all due identities |
| `UsageObject.UsageRecorder.FinishFirst` | internal/auth/api_key_usage.go:261-286 | one turn of the write loop, by the fate of the write |
| `UsageObject.UsageRecorder.WriteBatch` | internal/auth/api_key_usage.go:260-287 | the write loop applies the fates in turn until the batch is done, timed out or abandoned, with any submissions and other transactions before each write |
| `UsageObject.UsageRecorder.Flush` | internal/auth/api_key_usage.go:252-291 | a flush claims one batch and leaves none behind, whatever happens between its writes |
| `UsageObject.BesideIsStep` | internal/auth/api_key_usage.go:167-199 | what happens between the writes of a batch is a step of the machine the laws over runs are about |
| `UsageObject.Database.Apply` | internal/auth/store.go:177-231 | key creation, revocation and the bootstrap upsert on the rows |
| `UsageObject.Database.Write` | internal/auth/api_key_usage.go:34-39 | the guarded update touches only the row of the same digest and generation, not revoked, five minutes or more after its last sample |
| `UsageObject.UsageRecorder.Discard` | internal/auth/api_key_usage.go:158-163 | discarding closes the recorder and empties the table |
| `IssuerKeys.ReturnedKeyWasPublished` | internal/auth/assertion_verifier.go:211-370 | in every interleaving a returned key came from a successful load, led for exactly the requested rule ID and revision, published less than one lifetime ago |
| `IssuerKeys.LateLoadPublishesNothing` | internal/auth/assertion_verifier.go:337-353 | a load that ends after another revision was registered, or after its entry was evicted and perhaps recreated, changes no entry's keys, validity or refresh time |
| `IssuerKeys.StaysUncached` | internal/auth/assertion_verifier.go:223-260 | an entry that has left the cache never comes back to it |
| `IssuerKeys.KeysSourced` | internal/auth/assertion_verifier.go:338-342 | the keys of every entry, cached or not, come from one publication, with the validity that goes with it |
| `IssuerKeys.LeadingStays` | internal/auth/assertion_verifier.go:319-370 | a call leads at most one load and returns when it ends |
| `IssuerLoads.AbandonedLeavesNoTrace` | internal/auth/assertion_verifier.go:319-361 | an abandoned refresh leaves its entry's keys, validity, last error, last attempt and last forced time exactly as before it began |
| `IssuerLoads.PassesBounded` | internal/auth/assertion_verifier.go:211-281 | a call passes once, and once more for each of at most as many other calls as abandoned their loads; never more often than there are calls |
| `IssuerLoads.RunCharges` | internal/auth/assertion_verifier.go:267-281 | each extra pass of a call is charged to a different other call whose own context ended |
| `IssuerLoads.ForcedRefreshesApart` | internal/auth/assertion_verifier.go:303-326 | a recorded forced refresh bars the next one of an entry with still-valid keys for 30 s |
| `IssuerRuns.CacheBounded` | internal/auth/assertion_verifier.go:223-260 | in every interleaving cache and revision table hold at most 128 entries each and a rule has at most one cached revision, the registered one if it is registered |
| `IssuerRuns.RefreshesCounted` | internal/auth/assertion_verifier.go:311-354 | the refresh counter is the number of loads in flight, at most 16, each on an entry of its own |
| `IssuerRuns.RunInv` | internal/auth/assertion_verifier.go:211-370 | the match between entries, loads in flight and the calls that lead or join them holds in every interleaving |
| `IssuerRuns.TryMoves` | internal/auth/assertion_verifier.go:211-328 | a pass changes no existing entry unless it leads a load on it, and then only its attempt times |
| `IssuerSteps.StepKeeps` | internal/auth/assertion_verifier.go:98-370 | every critical section keeps the invariant |
| `IssuerObject.AssertionVerifier.Pass` | internal/auth/assertion_verifier.go:211-328 | the critical section at the top of the loop: closed, stale, registering, selecting, and the decision to return, join or lead |
| `IssuerObject.AssertionVerifier.RegisterRule` | internal/auth/assertion_verifier.go:223-243 | other revisions leave the cache and the rule is registered, forgetting one without a load in flight if the table is full |
| `IssuerObject.AssertionVerifier.EvictRevisions` | internal/auth/assertion_verifier.go:224-228 | the loop evicts every cached revision of the rule |
| `IssuerObject.AssertionVerifier.FindSpare` | internal/auth/assertion_verifier.go:230-236 | the loop finds a registered rule whose load is not in flight, or there is none |
| `IssuerObject.AssertionVerifier.SelectEntry` | internal/auth/assertion_verifier.go:244-260 | the cached entry, or a new one if there is or can be made room |
| `IssuerObject.AssertionVerifier.JudgeEntry` | internal/auth/assertion_verifier.go:261-328 | fresh key, join, cooldown after an error, cooldown of forced refreshes, refresh limit, or lead |
| `IssuerObject.AssertionVerifier.Finish` | internal/auth/assertion_verifier.go:334-368 | the critical section after a load: publish, abandon or record, and the leader's result |
| `IssuerObject.AssertionVerifier.MayPublish` | internal/auth/assertion_verifier.go:338-342 | keys are published only while open, registered at this revision and cached as this entry |
| `IssuerObject.AssertionVerifier.AfterJoin` | internal/auth/assertion_verifier.go:277-292 | a joined caller passes again if the load was abandoned, else returns what its entry holds |
| `IssuerObject.AssertionVerifier.Close` | internal/auth/assertion_verifier.go:98-107 | a closed verifier accepts no pass |
| `TransportRuns.NewSystemInv` | internal/blob/protected_transport.go:97-108 | a new transport satisfies the invariant |
| `TransportObject.HTTPGeneration.Track` | internal/blob/protected_transport.go:66-75 | a new connection is tracked unless the generation is closed |
| `TransportRuns.DrainHasUser` | internal/blob/protected_transport.go:109-169 | while the transport runs, a draining generation has an unreleased request, it is not the active one, and a deferred activation waits only for a drain |
| `TransportRuns.DeferredActivationHappens` | internal/blob/protected_transport.go:152-161 | when the drain it waits for ends, a deferred activation is made: the owner's trust is active and nothing is deferred any more |
| `TransportRuns.UsersAreAdmittedLessReleased` | internal/blob/protected_transport.go:162-198 | over any run the user count of each generation is the number of requests admitted to it less the number released from it |
| `TransportRuns.ReleasedForEver` | internal/blob/protected_transport.go:201-218 | a request keeps the generation it was admitted to and, once released, is never released again |
| `TransportRuns.ReleasedExactlyOnce` | internal/blob/protected_transport.go:188-218 | over any run the releases of a request number one if it is released by then and none otherwise |
| `TransportRuns.NoneAdmittedToRetired` | internal/blob/protected_transport.go:170-187 | no request is ever admitted to a generation that has been retired |
| `TransportRuns.GoneForEver` | internal/blob/protected_transport.go:125-161 | a generation that has been let go is never active or draining again |
| `TransportRuns.StaleTimerDoesNothing` | internal/blob/protected_transport.go:136-150 | the timer of a generation that has been let go changes nothing, whatever drains by then |
| `TransportRuns.ClosedOnlyUnused` | internal/blob/protected_transport.go:79-96 | while the transport runs a generation is closed only when its last user is gone or by its own timer |
| `TransportRuns.StepKeeps` | internal/blob/protected_transport.go:109-235 | every step keeps one active generation, at most one draining, all others closed and without connections |
| `TransportLaws.ActivateKeeps` | internal/blob/protected_transport.go:110-151 | new trust becomes active at once unless something drains, and the old generation drains only if it is used |
| `TransportLaws.FinishKeeps` | internal/blob/protected_transport.go:152-161 | the end of a drain closes the generation and makes a deferred activation, once |
| `TransportObject.ProtectedTransport.ActivateLocked` | internal/blob/protected_transport.go:110-151 | activation on the objects, which ends because an activation is retried at most once |
| `TransportObject.ProtectedTransport.FinishLocked` | internal/blob/protected_transport.go:152-161 | the end of a drain on the objects |
| `TransportObject.ProtectedTransport.ReleaseGeneration` | internal/blob/protected_transport.go:162-169 | a release ends the drain when it is the last |
| `TransportObject.ProtectedTransport.Admit` | internal/blob/protected_transport.go:170-187 | a request is refused when stopped, without trust or with expired trust, else it uses the active generation |
| `TransportObject.ProtectedTransport.TimerFired` | internal/blob/protected_transport.go:139-144 | the timer ends a drain that is still that generation's |
| `TransportObject.ProtectedTransport.Stop` | internal/blob/protected_transport.go:219-226 | stopping drops a deferred activation |
| `TransportObject.HTTPGeneration.Close` | internal/blob/protected_transport.go:79-96 | closing a generation closes every tracked connection, once |
| `TransportObject.OwnedBody.End` | internal/blob/protected_transport.go:201-218 | the first end of a body releases its generation, the others do nothing |
| `Lineages.EmptyStoreInv` | internal/storage/postgresql_auth_schema.go:5-69 | an empty store satisfies the invariant |
| `Lineages.StaleForEver` | internal/auth/authority_resolver.go:161-175 | once an import advances a rule, identity or grant, no key or token stamped with the older revision is admitted and no principal with that lineage issues a key in any later run, re-enabling included |
| `Lineages.ChangedIsStale` | internal/auth/policy.go:204-243 | any change of a row makes what was stamped from it stale |
| `Lineages.RevisionsAdvance` | internal/auth/policy.go:189-243 | over a run rows stay, and a row that changes in any way gets a later revision |
| `Lineages.StampedWhenInserted` | internal/auth/authority_resolver.go:401-451 | every stored stamp was current, of rows in force, when it was inserted |
| `Lineages.StampsNeverAhead` | internal/auth/key_issuance.go:52-60 | no stored stamp is ever ahead of the rows it names |
| `Lineages.ChainShrinks` | internal/auth/key_issuance.go:30-123 | down any chain of issued keys operations are a subset of every ancestor's, and rule, identity and grant with their revisions and the workspace are the same |
| `Lineages.NeverIndependent` | internal/auth/key_issuance.go:87-123 | an issued key is independent exactly when its issuer is an independent key |
| `Lineages.KeysStay` | internal/storage/postgresql_auth_schema.go:149-161 | a key's lineage, ceiling, parent and workspace never change |
| `Lineages.UsableKeyIsAdmitted` | internal/auth/authority_resolver.go:182-282 | the principal of an issued key always passes validation: a key is admitted exactly when it is valid and its authority is in force |
| `Lineages.UsableTokenIsAdmitted` | internal/auth/authority_resolver.go:182-282 | the same of an access token |
| `Lineages.AdmittedKeyIssues` | internal/auth/key_issuance.go:34-123 | an admitted key can issue a child exactly when it may create keys |
| `Lineages.IssuedKeyIsAdmitted` | internal/auth/key_issuance.go:99-123 | a key issued under a grant is admitted in its turn, with its issuer's lineage, identity and operations |
| `AuthorityRuns.TokenStampedCurrent` | internal/auth/authority_resolver.go:360-459 | a token is stamped with the revisions then current and lives more than 120 s, at most 600 s and no longer than its proof |
| `AuthorityRuns.IssuerMatches` | internal/auth/key_issuance.go:64-89 | the issuer's row, read again, has the principal's lineage and every operation the principal claims |
| `AuthorityRuns.CreatedOK` | internal/auth/key_issuance.go:99-123 | a child key's stamps are current, its operations valid and none its issuer lacks |
| `AuthorityRuns.StepKeeps` | internal/auth/policy.go:136-258 | every transaction keeps stamps, lineages, unique subjects and single active grants |
| `PolicyLaws.OneActiveThroughout` | internal/auth/policy.go:164-253 | after every single write of an import an identity has at most one active grant in a workspace, given it held before |
| `PolicyLaws.UniqueSubjectsThroughout` | internal/auth/policy.go:319-337 | after every single write no two identities share a subject, given none did before |
| `PolicyRevisions.SecondImportDoesNothing` | internal/auth/policy.go:204-253 | a document imported twice in a row changes nothing the second time and returns no changes |
| `PolicyRevisions.TargetsApart` | internal/auth/policy.go:62-129 | no two writes of a valid document touch the same row |
| `PolicyRevisions.ImportAdvances` | internal/auth/policy.go:189-243 | an import keeps every row and advances the revision of each row it changes |
| `PolicyRevisions.ChangeNamesRevision` | internal/auth/policy.go:177-188 | a returned change names its row and the revision the row then has, one above the old one |
| `PolicyChecks.CheckDocument` | internal/auth/policy.go:56-131 | the validator accepts exactly the valid documents: at most 1000 entries, each ID acceptable and once per kind, each subject once, one enabled grant per scope |
| `PolicyChecks.AddAll` | internal/auth/policy.go:65-72 | the seen set refuses an ID that is unacceptable or named before |
| `PolicyChecks.CheckIdentities` | internal/auth/policy.go:78-97 | no two identities share a subject and each is a human or a service with its account |
| `PolicyChecks.CheckGrants` | internal/auth/policy.go:98-109 | no two enabled grants share a scope and each is well formed |
| `PolicyChecks.CheckReferences` | internal/auth/policy.go:307-399 | the validator accepts exactly the documents the rows allow |
| `PolicyChecks.CheckGrantFits` | internal/auth/policy.go:338-374 | workspace and identity exist, another active grant in the scope is being retired, and an existing grant keeps its scope and is not revoked |
| `PolicyChecks.CheckIdentityFits` | internal/auth/policy.go:319-337 | an existing identity keeps its columns and no other row has its subject |
| `PolicyChecks.RetiringGrants` | internal/auth/policy.go:310-318 | the grants the document revokes or disables |
| `PolicyObject.Plan` | internal/auth/policy.go:165-252 | every write of the document once, kind after kind, each kind in the order of the IDs, among grants what is disabled before what is enabled, and the tokens last in the document's order |
| `PolicyObject.Sort` | internal/auth/policy.go:166-191 | the writes of one kind in order, none lost and none added |
| `PolicyObject.PolicyStore.RunAll` | internal/auth/policy.go:204-253 | the write loops, which keep single active grants after each write |
| `PolicyObject.PolicyStore.Apply` | internal/auth/policy.go:136-258 | a document is accepted exactly when it is valid and the rows allow it; then the rows and the changes are those of its plan |
| `Principals.Validate` | internal/auth/principal.go:89-138 | accepts exactly the three complete shapes of a principal |
| `Principals.CheckOperations` | internal/auth/principal.go:127-138 | the loop accepts a nonempty list of registered operations, none twice |
| `Principals.ConnectionKeyMayNothing` | internal/auth/principal.go:149-160 | a connection key is authorized for no public operation |
| `Principals.ConnectionKeyIsValid` | internal/auth/principal.go:75-81 | though the principal of a connection key is valid |
| `Principals.IndependentIsValid` | internal/auth/principal.go:69-73 | the principal of an independent key is valid |
| `Principals.SameOperationsExactly` | internal/auth/key_issuance.go:15-25 | when the first list repeats nothing, the comparison holds exactly when both list the same operations |
| `Principals.DecidesExactlyWithoutRepetition` | internal/auth/key_issuance.go:15-25 | the comparison decides sameness for every second list if and only if the first repeats nothing |
| `Principals.SameOperationsMisleads` | internal/auth/key_issuance.go:15-25 | with a repetition it accepts a list with an operation the first lacks |
| `Principals.RepetitionMisleads` | internal/auth/key_issuance.go:15-25 | every first list with a repetition has such a misleading second list |
| `Principals.Effective` | internal/auth/key_issuance.go:108-117 | the loop gives exactly the registered operations the issuer has, none twice |
| `Principals.InheritedValid` | internal/auth/key_issuance.go:108-117 | a child of an issuer that may create keys has a valid list, with key creation in it and nothing the issuer lacks |
| `Issuance.CountMatches` | internal/auth/authority_resolver.go:405-426 | the loop over the rows found sees one match exactly when one grant matches |
| `AuthorityObject.AuthorityStore.LookupGrants` | internal/storage/postgresql_auth_schema.go:89-95 | the first two matching active grants in the order of their IDs: all of them if fewer |
| `AuthorityObject.AuthorityStore.Issue` | internal/auth/authority_resolver.go:360-459 | token issue on the store: selectors, identity, one grant, current authority, lifetime, and the row inserted |
| `AuthorityObject.AuthorityStore.AuthenticateKey` | internal/auth/authority_resolver.go:182-282 | admission of a key on the store |
| `AuthorityObject.AuthorityStore.AuthenticateToken` | internal/auth/authority_resolver.go:182-282 | admission of a token on the store |
| `AuthorityObject.AuthorityStore.CreateForPrincipal` | internal/auth/key_issuance.go:30-131 | key issuance on the store: authorization, current authority, the issuer's row, and the row inserted |

## Left out

* Events requests whose query fails its schema; HTTP, server-sent-event writing, flushing, headers, request logs, JSON text and schemas: messages are decoded values,
  and equality of canonical content is equality of a content value.
* Fault injection, the events modes (delayed, padded and silent events requests included), early dispatch, held answers
  and `send` of the control interface: they break the protocol on purpose.
* Message IDs of the server's own events, the counters of sends, reuses and renewals, bindings, git tickets and session
  drives.
* Sizes and media of tool reports: whether a report is over its limit is part of the message.
* Frames left on a stream that another one has replaced: a replaced stream is only closed. Streams, credentials and
  instructions are values held by their connection or server, so aliasing of those objects is not modelled.
* Assertion parsing, signatures, key fetching over HTTP, DNS and TLS: the outcome of a key load is arbitrary.
* Issuer cache: the clock readings within one critical section are one reading.
* Usage recorder: the start of the worker and its ticker, the logging of failures and the metrics collector; sequence
  numbers do not wrap around at 64 bits.
* Policy: whether the caller owns the installation, the advisory lock, JSON decoding, and the validation of a rule's or an
  issuer's URLs, whose verdicts are fields of the document.
* Authority: connection-key admission by digest, request parsing, audit events, key names (whether a name is acceptable is a
  parameter), listing and metadata of keys.
* Transport: idle connections closed at activation; a timer may fire at any time, which includes 20 seconds after retirement.
* The rest of the repository, such as the agent, child control, database and deployment packages.
* The difference between bytes and characters: a character of a model string stands for a byte of the source's, so lengths
  and the order of texts are those of bytes; the database's order of IDs is taken to be the same order.
