# Verified models of the SIM gateway's protocols

The gateway keeps SIM cards, modems and VoWiFi providers under the control of one Core process. Agents on other hosts
connect to it, an administrator manages credentials, releases and providers, and SMS events arrive from providers that
retry. This project models the parts whose guarantees hold over whole runs, with failures, lost answers, crashes and
interleavings, and proves those guarantees.

Where the program changes state step by step, the model is a class with the program's fields; every method is proved to
compute a function of the old state, and lemmas about that function, about single steps of a state machine and about
whole runs (sequences of states) say what the design promises. Where the program only computes, the model is a function.

| files | what they model |
|---|---|
| `Credentials`, `CredentialRuns`, `CredentialManager` | the credential authority: publication through a persister whose errors do not say whether the write happened, at most one pending document, enrolment |
| `RemotePersister` | the remote persister and its compare-and-set handler, refining that uncertain persister |
| `AgentServer`, `Admission` | admission of Agent connections against concurrent credential changes |
| `Login` | two-phase login, throttling, sessions and the password epoch |
| `Maintenance` | host and update leases fencing the requests of Agent connections |
| `Ordering`, `Plan`, `Deployment`, `PlannedDeployment` | provider deployment: the plan, the transaction with compensation, and what the two together mean for the manifests |
| `ReleaseLinks`, `ReleaseRuns` | release installation: a journaled switch of links that survives a crash at any write |
| `Messages`, `History`, `MessageStore`, `MessageRuns`, `Correspondence` | the SMS event store: dedupe, outboxes, tombstones, paging, conversations, deletion, and what becomes of one event |
| `ProviderDirectory` | replacement, heartbeats and use of media providers under read and write locks |
| `Health` | normalised topologies and the delta-encoded health channel |
| `Frames` | the framing between the Agent and the cellular companion |
| `AtParser` | reading modem answers that USB splits arbitrarily |

## What is assumed

- Hashes are injective; a digest is represented by what it digests. Random tokens are fresh, where a lemma says so.
- Clocks do not go backwards. The admission time of a login may be stale, as the program reads it before its lock.
- A write through the persister that fails leaves the old document or the new one. Lock-sized sections are atomic steps.
- In a deployment, receipt writes succeed; unit names are injective in line ids, so a unit is named by its line, and line
  ids hold no NUL. Any other call may fail, with or without taking effect; which ones do is an input of the apply.
- In an installation every write is one atomic change of the disk, and a crash leaves the disk as some write left it. The
  set of calls that fail is an input of the session.
- The store's transactions are atomic and its record sequence does not wrap.

## Where a promise fails, and exactly when

- A delayed duplicate POST overwrites a newer credential document if a document recurs byte for byte
  (`RemotePersister.RecurrenceRevivesDelayedPost`); one delivery changes the file under exactly the condition of
  `DeliveryOverwrites`.
- A POST that is under way when Core restarts can land behind the new process, which then holds other credentials than the
  file with nothing pending (`RequestOutlivesRestart`, `CredentialRuns.WriteOutlivesRestart`), or can never publish again
  until it is restarted (`RestartCanWedge`, `WedgedUntilRestart`). `RestartIsSafeIff` and `LateWriteIsSafeIff` say exactly
  when; the theorems over runs of both modules are about runs in which no document recurs and no such POST is left
  (`Orderly`), or in which every late write finds its document still pending (`IsTimelyRun`).
- A rolled-back deployment receipt does not mean the initial host in two cases, and only in these
  (`Deployment.RestoresIff`, and the last contract of `ExecuteLocked`): the drain failed and left a line drained, because
  Core's answer was lost or malformed, a provider drained without saying so, or a release failed and the report of it was
  lost (`LoseAnswer`, `DrainUnnoticed`); or the forward step that failed had taken effect and is not undone, as with a link
  switched before its directory could be synchronised (`SwitchLate`).
- An applied deployment receipt means the candidate manifest only for the lines the plan names. Unchanged lines are not
  looked at (`PlannedDeployment.AppliedMeansTheManifestIff`). A changed line stays drained under it if the status read after
  the commit does not show its provider (`Deployment.AppliedIsOpenIff`, `OverlookDrain`).
- The resumptions of a deployment's rollback are retried, but a provider ends a drain only once
  (providers/vowifi-go/internal/service/maintenance.go:41-57): after an attempt that resumed some of the lines no attempt can
  succeed, and the apply ends in recovery by hand (`Deployment.Deployment.ResumeUntilDeadline`, `ReturnApart`).
- A rolled-back installation receipt does not mean the previous release if the activation switched the current link and
  could not synchronise the directory after the rename (`ReleaseLinks.RolledBackHoldsIff`, `ReleaseRuns.SwitchLate`);
  over whole runs this is the only exception (`ReleaseRuns.FailedActivationIsUndoneIff`).
- A release whose Xray artifact is not named `xray` makes the next reconciliation fail, unless the link existed
  (`ReleaseLinks.StaysTidyIff`, `RenamedXrayBreaksTheNextReconcile`). An explicit rollback cut off after its switch cannot
  be repeated (`ReleaseRuns.InterruptedRollbackRefuses`, `CutRollbackShort`); a new activation is still possible. The stable
  links of a release lead nowhere for an artifact that has another name than the fixed one
  (`ReleaseLinks.LeadsToItsArtifactsIff`).
- The comment above DeleteHistory (go-runtime/providermessages/store.go:408-410) says a replay cannot trigger I/O again.
  A replayed VoWiFi event whose notification was acknowledged is queued again; a cellular one is not
  (`MessageRuns.ReplayNotifiesAgainIff`, `VowifiIsNotifiedTwice`). The model follows the code.
- A conversation is listed whatever the length of its peer, and its pages are refused if the peer is longer than 256 bytes
  (`MessageStore.ConversationCanBePagedIff`, `Correspondence.LongPeerCannotBePaged`).
- For ordinary AT commands the answer can depend on how USB splits the stream, and for calls and data whether a success
  says OK or CONNECT can; `AtParser.StandardDependsOnTheSplitIff` and `KindDependsOnTheSplitIff` say exactly when, with
  `OkThenErrorDependsOnTheSplit` and `ConnectThenOkDependsOnTheSplit` as the cases.

## Model

| member | source | states |
|---|---|---|
| Credentials.PublishedDocumentReloads | go-runtime/adminauth/persistence.go:217-248 | every document that passes the publication check and is in the manager's canonical form is read back by a restarted manager exactly as it was |
| CredentialManager.ValidateEnrollments | go-runtime/adminauth/enrollment.go:24-40 | accepts exactly the enrolment maps within capacity whose identities and hashes are well formed and in which no two identities share a request |
| CredentialManager.ValidateCredentialDocument | go-runtime/adminauth/persistence.go:217-248 | accepts exactly the valid documents |
| CredentialManager.LoadTokens | go-runtime/adminauth/manager.go:167-178 | the token map a manager keeps: valid identities and trimmed tokens of admissible length, or refusal |
| CredentialManager.LoadCredential | go-runtime/adminauth/manager.go:126-203 | what a manager keeps of a stored document: nothing of an invalid one, and otherwise the specified canonical credential |
| CredentialManager.Manager.PersistCredential | go-runtime/adminauth/manager.go:439-448 | success means the file holds the payload; failure leaves the old file or the payload |
| CredentialManager.Manager.WriteCredential | go-runtime/adminauth/manager.go:414-437 | a publication replaces nothing that is pending but itself, and leaves itself pending exactly when unconfirmed |
| CredentialManager.Manager.ChangePassword | go-runtime/adminauth/manager.go:209-243 | the new manager state, file and answer are those of the specified request |
| CredentialManager.Manager.IssueAgentToken | go-runtime/adminauth/manager.go:311-341 | the same for issuing or rotating an Agent token; a retry answers with the pending token |
| CredentialManager.Manager.RevokeAgentToken | go-runtime/adminauth/manager.go:343-357 | the same for revoking one token |
| CredentialManager.Manager.UnenrollAgentToken | go-runtime/adminauth/manager.go:359-379 | the same for removing an identity from the list of Agents |
| CredentialManager.Manager.SetAgentCredentialMode | go-runtime/adminauth/manager.go:381-401 | the same for switching between the shared and the per-Agent mode |
| CredentialManager.Manager.CreateAgentToken | go-runtime/adminauth/enrollment.go:42-109 | the same for creating an Agent: early answers, admission, and publication under the reservation |
| CredentialManager.Manager.PublishEnrollment | go-runtime/adminauth/enrollment.go:85-109 | a created identity is adopted when confirmed and kept pending when not |
| CredentialManager.Manager.TokenForAgent | go-runtime/adminauth/manager.go:288-309 | the token an Agent must present now, if it has one |
| CredentialRuns.RunKeepsInv | go-runtime/adminauth/manager.go:126-203 | from a booted manager every reachable state, through requests, lost confirmations, restarts and late writes that land while their document is pending, has at most one pending document, a loadable file that agrees with memory or with that document, and a pending document that its own request regenerates |
| CredentialRuns.RestartReadsMemoryOrPending | go-runtime/adminauth/manager.go:126-203 | at every point of every run without a late write that outlives its pending document, at most one document is pending, a restart succeeds, and it reads either the credentials in memory or exactly the pending document |
| CredentialRuns.RetryRegenerates | go-runtime/adminauth/manager.go:414-437 | repeating the request that left a document pending regenerates that document exactly, and once confirmed settles it |
| CredentialRuns.PendingAdmitsOnlyItself | go-runtime/adminauth/manager.go:414-437 | while a document is pending, any event but a restart either changes nothing in memory or publishes exactly that document |
| CredentialRuns.UnconfirmedPublicationCanBeRetried | go-runtime/adminauth/manager.go:414-437 | the manager does not wedge: over any such run in which a publication stays unconfirmed, the original request repeated at any later moment settles it |
| CredentialRuns.ManagerAfter | go-runtime/adminauth/manager.go:209-448 | the complete list of ways in which one event can change the manager |
| CredentialRuns.ConfirmationsGetLost | go-runtime/adminauth/manager.go:414-448 | the uncertainty is real: a run in which a confirmation is lost and memory and file disagree |
| CredentialRuns.LateWriteIsSafeIff | go-runtime/adminauth/persistence.go:154-192 | a write that lands late keeps file and manager in agreement if and only if the file has moved on, its document is still pending, or it brings what memory holds |
| CredentialRuns.WriteOutlivesRestart | go-runtime/adminauth/manager.go:126-203 | the other case occurs: a run in which a write lands after a restart, and the file differs from memory with nothing pending |
| CredentialRuns.EnrollmentsGrowAlongRuns | go-runtime/adminauth/enrollment.go:42-109 | enrolment records only grow over a run, restarts included |
| CredentialRuns.RequestsServeOneIdentity | go-runtime/adminauth/enrollment.go:24-40 | no request hash serves two identities, in memory or on disk |
| CredentialRuns.SuccessfulCreate | go-runtime/adminauth/enrollment.go:42-109 | a successful create leaves an enrolment record made of exactly its request and its token |
| CredentialRuns.CreatesAgree | go-runtime/adminauth/enrollment.go:46-76 | all successful creates of one identity in a run return the same token and carry the same request |
| CredentialRuns.RetirementRetires | go-runtime/adminauth/manager.go:311-379 | rotating, revoking or unenrolling an enrolled identity retires the token it was created with |
| CredentialRuns.RetiredRefusesCreate | go-runtime/adminauth/enrollment.go:63-77 | no create of a retired identity succeeds |
| CredentialRuns.RetiredForever | go-runtime/adminauth/enrollment.go:42-109 | once retired, no create of that identity ever succeeds again, whatever happens and however often the process restarts |
| CredentialRuns.FreshRequestIsGrantedIff | go-runtime/adminauth/manager.go:209-448 | where nothing is pending, a request that asks for a change is granted if and only if the administrator is entitled to it and the document may be published, and then that document is in force |
| CredentialRuns.RequestedIsPublishableIff | go-runtime/adminauth/persistence.go:217-248 | what the request of an entitled administrator must carry for its document to pass the publication check, request by request |
| CredentialRuns.FreshAnswers | go-runtime/adminauth/manager.go:209-448 | what a granted request answers: the minted token, or whether anything changed |
| CredentialRuns.OthersWaitWhilePending | go-runtime/adminauth/manager.go:209-448 | while a publication is pending every other request fails and changes nothing |
| CredentialRuns.AgentIdsAre | go-runtime/adminauth/manager.go:450-462 | identities are up to 128 ASCII letters, digits and marks |
| CredentialRuns.ChangedPasswordIsInForce | go-runtime/adminauth/manager.go:209-243 | after a change of password exactly the new one is accepted |
| CredentialRuns.EnrolledIsAnsweredIff | go-runtime/adminauth/enrollment.go:63-76 | an enrolled identity is answered with its own token again, to the request it was enrolled by and to no other |
| RemotePersister.Handler.Write | go-runtime/adminauth/persistence.go:250-292 | the file changes at the rename, also when a later step reports failure |
| RemotePersister.Handler.Publish | go-runtime/adminauth/persistence.go:154-192 | compare and set: the response and the file are those specified for the presented base digest |
| RemotePersister.RemoteCredentialPersister.PersistCredential | go-runtime/adminauth/persistence.go:57-106 | which request is sent, when success is reported and what stays pending, for every response, lost response and read-back |
| RemotePersister.DeliveryOverwrites | go-runtime/adminauth/persistence.go:154-192 | a delivered request changes the file if and only if the file is still its base, does not hold the payload yet, and the write gets past its rename |
| RemotePersister.RunKeepsInv | go-runtime/adminauth/persistence.go:57-138 | over all deliveries, duplicates, losses, retries and restarts, if no document recurs and no restart leaves a request under way that the file would still accept, the protocol invariant holds |
| RemotePersister.PersisterFollowsManager | go-runtime/adminauth/persistence.go:57-106 | the persister's pending bytes are never other than the manager's pending document |
| RemotePersister.SuccessMeansPublished | go-runtime/adminauth/persistence.go:57-106 | whenever a publication reports success the file holds its payload, with or without recurrence and restarts |
| RemotePersister.RetryIsNeverRefused | go-runtime/adminauth/persistence.go:57-192 | in every such run the request for the pending document is one the file accepts, it can be sent again, and its answer is a success |
| RemotePersister.StepRefines | go-runtime/adminauth/persistence.go:57-192 | one step of the protocol is a step of the simple uncertain persister, or none |
| RemotePersister.RefinesUncertainPersister | go-runtime/adminauth/persistence.go:57-192 | along every such run the file holds the confirmed document or the one in progress, and changes only from the first to the second |
| RemotePersister.DelayedPostIsHarmless | go-runtime/adminauth/persistence.go:154-192 | in every such run a delayed request for an older document changes nothing |
| RemotePersister.RecurrenceRevivesDelayedPost | go-runtime/adminauth/persistence.go:154-192 | with recurrence it does: for any two documents there is a run in which the file ends up with the older one |
| RemotePersister.RestartIsSafeIff | go-runtime/adminauth/manager.go:126-203 | a restart keeps the protocol invariant if and only if no request is under way that the file would still accept, which is exactly when no such delivery can change the file behind the new process |
| RemotePersister.RequestOutlivesRestart | go-runtime/adminauth/persistence.go:165-183 | for any two documents there is a run in which a request lands after a restart: the file holds the new document, the process the old one, and nothing is pending |
| RemotePersister.WedgedUntilRestart | go-runtime/adminauth/persistence.go:63-106 | if the file has moved away from the base the persister holds, no publication ever succeeds again, retried or not, until the process restarts |
| RemotePersister.RestartCanWedge | go-runtime/adminauth/persistence.go:66-73 | this occurs without any recurrence: the new process has read the old base before the request of the old one lands |
| RemotePersister.UndisturbedPublicationSucceeds | go-runtime/adminauth/persistence.go:57-99 | a publication that nothing disturbs puts the document on file and reports it |
| RemotePersister.LostAnswerIsReadBack | go-runtime/adminauth/persistence.go:83-90 | so does one whose answer is lost, exactly if the file can be read back |
| Login.FilterRecent | go-runtime/adminauth/manager.go:624-636 | keeps exactly the failures inside the window, in order |
| Login.LoginGate.RetryAfterPeer | go-runtime/adminauth/manager.go:624-645 | prunes the peer's failures and returns the specified delay |
| Login.LoginGate.SweepLoginFailures | go-runtime/adminauth/login_retention.go:23-32 | at most once a minute every history is pruned |
| Login.SweepsEveryMinute | go-runtime/adminauth/login_retention.go:23-32 | a sweep takes place exactly when a minute has passed since the last, and keeps exactly the peers with a failure inside the window |
| Login.LoginGate.CanTrackLoginPeer | go-runtime/adminauth/login_retention.go:10-21 | decides exactly whether one more peer fits, counting peers in flight |
| Login.LoginGate.BeginLogin | go-runtime/adminauth/manager.go:464-487 | the first locked section of a login: throttled, or admitted with the password epoch it read |
| Login.LoginGate.FinishLogin | go-runtime/adminauth/manager.go:489-518 | the second locked section: failure recorded, capacity, or a session |
| Login.LoginGate.PurgeExpired | go-runtime/adminauth/manager.go:647-653 | exactly the live sessions remain |
| Login.LiveMeansUsable | go-runtime/adminauth/manager.go:489-653 | the sessions that count against the capacity are those that can still be used |
| Login.LoginGate.UseSession | go-runtime/adminauth/manager.go:520-536 | a live session is extended, a dead one removed |
| Login.LoginGate.Logout | go-runtime/adminauth/manager.go:538-542 | removes exactly that session |
| Login.LoginGate.ReplacePassword | go-runtime/adminauth/manager.go:209-243 | a password change starts a new epoch without sessions |
| Login.AdmittedHistoryHasRoom | go-runtime/adminauth/manager.go:469-481 | a history that admits an attempt has room for one more failure, however stale the admission time |
| Login.RecentAre | go-runtime/adminauth/manager.go:624-636 | the failures that count are exactly those inside the window |
| Login.WaitIsExact | go-runtime/adminauth/manager.go:636-645 | the seconds a peer is told are the least after which its delay is over |
| Login.BeginAnswers | go-runtime/adminauth/manager.go:464-487 | when a login is admitted, on the peer's failures, and how long it is told to wait otherwise |
| Login.FinishAnswers | go-runtime/adminauth/manager.go:489-518 | the right password of the present epoch logs in, a wrong or outdated one is one more failure, and no one else is touched |
| Login.SessionLasts | go-runtime/adminauth/manager.go:489-542 | a session just opened is found exactly for its time to live, which each use extends |
| Login.OtherSessionsLast | go-runtime/adminauth/manager.go:489-542 | using one session or logging out of it leaves every other as it was |
| Login.PruningForgetsNothingRecent | go-runtime/adminauth/login_retention.go:23-32 | neither the sweep nor the pruning of a peer takes away a failure inside the window, whosever it is |
| Login.FailuresAreBounded | go-runtime/adminauth/manager.go:464-501 | in every reachable state every peer's failure list has at most nineteen entries |
| Login.FailureBoundIsReached | go-runtime/adminauth/manager.go:464-501 | the bound is exact: for every peer there is a run that ends with nineteen retained failures |
| Login.RunKeepsInv | go-runtime/adminauth/manager.go:464-518 | the invariant of the two-phase login over every interleaving of logins, sweeps, password changes and session use |
| Login.CapacitiesHold | go-runtime/adminauth/login_retention.go:10-21 | peers remembered or in flight never exceed 4096, derivations never exceed two nor one for each peer, sessions never exceed 1024, and no live session was verified against an older password |
| Admission.MutationOwesWhatItChanges | go-runtime/adminauth/handler.go:138-208 | a mutation that changes an identity's token is followed by an invalidation covering it |
| Admission.MutationOwesItsIdentityAlone | go-runtime/adminauth/handler.go:151-198 | issuing, revoking or unenrolling a token disturbs no connection itself and owes an invalidation of no other identity |
| Admission.NextKeepsInv | go-runtime/adminauth/handler.go:107-212 | each lock-sized step of handshakes, mutations, invalidations and creates keeps the invariant of manager and server together |
| Admission.TokenForAgentIff | go-runtime/adminauth/manager.go:288-309 | a valid identity that is not being enrolled is given its current token if it has one, and every other is refused |
| Admission.AnsweredTokenIsCurrent | go-runtime/adminauth/manager.go:288-341 | the token an issue or a create answers with is the one the identity must present from then on |
| Admission.IssueAnswersWhatWasMinted | go-runtime/adminauth/manager.go:311-341 | an issue answers with the token minted for it, and a retry with the token minted first |
| Admission.WithdrawnTokens | go-runtime/adminauth/manager.go:343-401 | a revoked identity is refused, an unenrolled one falls back on the shared token, and scoped credentials end that |
| Admission.RunKeepsAdmission | go-runtime/agentlink/server.go:229-357 | so does every interleaving of them |
| Admission.ConnectionsAreEntitled | go-runtime/agentlink/server.go:400-416 | each registered open connection was authenticated with the token current for its identity, or an invalidation covering it is still owed |
| Admission.SettledConnectionsAreCurrent | go-runtime/agentlink/server.go:400-416 | once nothing is owed no open connection rests on a superseded credential |
| Admission.InvalidationOutdatesHandshakes | go-runtime/agentlink/server.go:1640-1651 | no handshake under way when an invalidation took effect ever registers |
| Admission.CreatedIdentityIsUnconnected | go-runtime/agentlink/server.go:187-199 | from reservation to release a created identity has no handshake and no connection |
| Admission.LookupAuthenticatesIff | go-runtime/agentlink/server.go:259-263 | a handshake goes on exactly with the current token of an identity that is not being enrolled |
| Admission.AddRegistersIff | go-runtime/agentlink/server.go:1640-1651 | an authenticated handshake registers exactly if no invalidation came in between and its identity has no other connection |
| Admission.InvalidationClosesExactly | go-runtime/agentlink/server.go:400-417 | an invalidation closes exactly the registered connections of its identity, or all if it names none |
| Admission.InvalidationCarriesThrough | go-runtime/agentlink/server.go:400-417 | an owed invalidation can be carried through, and ends with exactly the covered connections closed and nothing of it owed |
| Admission.TokenConnects | go-runtime/agentlink/server.go:229-357 | an Agent that presents the token it is given connects, unless it is connected already |
| Admission.IssuedTokenConnects | go-runtime/agentlink/server.go:229-357 | a token just issued connects its Agent |
| Admission.CreateReservesIff | go-runtime/agentlink/server.go:187-199 | a create reserves its identity exactly if nothing of it is connecting or connected |
| AgentServer.Server.ReserveEnrollment | go-runtime/agentlink/server.go:187-199 | granted exactly while the identity is neither connected, connecting nor being enrolled |
| AgentServer.Server.ReleaseEnrollment | go-runtime/agentlink/server.go:194-198 | gives up the reservation and nothing else |
| AgentServer.Server.BeginHandshake | go-runtime/agentlink/server.go:241-250 | refused during enrolment; otherwise counted, with the epoch it captured |
| AgentServer.Server.EndHandshake | go-runtime/agentlink/server.go:251-258 | uncounts one handshake or connection |
| AgentServer.Server.Add | go-runtime/agentlink/server.go:1640-1651 | registers exactly when no invalidation came in between and no other connection has the identity |
| AgentServer.Server.Remove | go-runtime/agentlink/server.go:1653-1658 | removes the registration only if it is this connection's |
| AgentServer.Server.CollectInvalidated | go-runtime/agentlink/server.go:400-413 | starts a new epoch and returns exactly the covered registered connections |
| Maintenance.Server.BeginHostMaintenance | go-runtime/agentlink/maintenance.go:42-74 | the lease is taken exactly under the specified conditions, each refusal with its error |
| Maintenance.Server.EndHostMaintenance | go-runtime/agentlink/maintenance.go:113-124 | only the owner's lease is released |
| Maintenance.Server.BeginUpdateMaintenance | go-runtime/agentlink/maintenance.go:79-101 | taken exactly when no lease exists and no registered connection is busy |
| Maintenance.Server.EndUpdateMaintenance | go-runtime/agentlink/maintenance.go:103-111 | only the owner ends it |
| Maintenance.Server.RegisterRequest | go-runtime/agentlink/server.go:1508-1537 | a request becomes pending exactly if it passes the fence and its connection is open |
| Maintenance.NextKeepsInv | go-runtime/agentlink/maintenance.go:42-124 | every step keeps the host fence and the update fence |
| Maintenance.RunKeepsInv | go-runtime/agentlink/maintenance.go:42-124 | so does every run, reconnections included |
| Maintenance.LeaseFencesRequests | go-runtime/agentlink/maintenance.go:20-25 | under a host lease whatever is pending on the registered connection is the restart with that lease and generation or the exact permitted profile command |
| Maintenance.UpdateFencesRequests | go-runtime/agentlink/maintenance.go:79-101 | during update maintenance no registered connection has a pending request and no host is leased |
| Maintenance.OnlyTheOwnerReleases | go-runtime/agentlink/maintenance.go:113-124 | over any run a lease ends only by its owner's release; disconnecting and reconnecting keep it |
| Maintenance.FirstReplyWins | go-runtime/agentlink/server.go:1720-1739 | a reply reaches the request with its id, the first one is kept, and only the caller's return removes it |
| Maintenance.RequestIsRegisteredIff | go-runtime/agentlink/server.go:1508-1537 | which requests become pending, on lease, permit and message, and which failure the others get |
| Maintenance.NewConnectionServes | go-runtime/agentlink/server.go:1640-1651 | a connection that comes up serves requests at once, has none pending and disturbs no other |
| Maintenance.ReconnectionIsPossible | go-runtime/agentlink/server.go:1640-1658 | an agent whose registration is gone may connect again, and its old connection closes |
| Maintenance.ClosedTakesNothing | go-runtime/agentlink/server.go:1652-1665 | a closed connection takes no further request and keeps what is pending until its callers return |
| Maintenance.ReturnSettles | go-runtime/agentlink/server.go:1524-1537 | a caller that returns takes its request back, and the host is idle after the last |
| Maintenance.HostBeginsIff | go-runtime/agentlink/maintenance.go:42-74 | a host is leased exactly if no update is going on and it is idle in the given generation, or already under this lease |
| Maintenance.HostEndsIff | go-runtime/agentlink/maintenance.go:113-124 | a lease is given up exactly by whoever holds it |
| Maintenance.UpdateBeginsIff | go-runtime/agentlink/maintenance.go:79-101 | an update begins exactly if no host is leased and no registered connection is busy, or it is going on already |
| Maintenance.UpdateEndsIff | go-runtime/agentlink/maintenance.go:103-111 | an update is ended exactly by whoever holds it |
| Maintenance.ReplyArrives | go-runtime/agentlink/server.go:1724-1734 | a reply reaches the request it names, as it was sent, and leaves every other request as it was |
| Maintenance.IdentifiersAre | go-runtime/agentlink/types.go:2827-2839 | lease identifiers are up to 128 ASCII letters, digits and marks |
| Maintenance.ReleaseReopens | go-runtime/agentlink/maintenance.go:113-124 | ordinary requests are refused while a host is leased and pass once it is released |
| Ordering.SortByKey | go-runtime/agentlink/types.go:2600-2616 | sorting by a key: a sorted permutation |
| Ordering.SortIsUnique | go-runtime/agentlink/types.go:2600-2616 | with distinct keys there is one sorted permutation, whatever the algorithm |
| Health.NormalizeTopology | go-runtime/agentlink/types.go:2555-2618 | the same facts with each list sorted by its key, and the unique normal form when keys are distinct |
| Health.NormalisationIgnoresOrder | go-runtime/agentlink/types.go:2555-2618 | two arrangements of the same facts with distinct keys have the same normal form, and it meets the ordering rules |
| Health.NormalFormIsUnique | go-runtime/agentlink/types.go:2555-2618 | any sorted arrangement of facts with distinct keys is the normal form |
| Health.NormalisationIsIdempotent | go-runtime/agentlink/types.go:2531-2541 | what passes validation is its own normal form |
| Health.ValidMeansDistinct | go-runtime/agentlink/types.go:2531-2541 | a masked normal form that validates comes from facts with distinct keys, so sort ties never reach the wire |
| Health.MaskedIsNegotiated | go-runtime/agentlink/client.go:788-810 | a masked topology passes every negotiation check of the server |
| Health.MaskingIsExact | go-runtime/agentlink/client.go:788-810 | masking takes away exactly what was not negotiated and carries everything else as observed |
| Health.AcceptedMovesOn | go-runtime/agentlink/server.go:1744-1787 | an accepted report has a greater sequence than the last, and its topology is negotiated and valid |
| Health.Reporter.ReportOnce | go-runtime/agentlink/client.go:784-827 | a report is sent exactly if the published topology validates, and carries it exactly if its revision is new |
| Health.SentAreNumbered | go-runtime/agentlink/client.go:784-827 | reports are numbered from one, and one omits the topology exactly if the report before published the same |
| Health.Reporter.ReportHealth | go-runtime/agentlink/client.go:776-827 | the rounds of a connection send exactly the specified series of reports, up to the first topology that does not validate |
| Health.Reporter.MaskLoop | go-runtime/agentlink/client.go:791-810 | the three passes over the modems compute the masked modems |
| Health.HealthConnection.ApplyHealth | go-runtime/agentlink/server.go:1744-1787 | accepted exactly under the specified conditions, with the specified new state; a refused report changes nothing |
| Health.DeltaRefinesFull | go-runtime/agentlink/server.go:1744-1787 | over any series of valid observations no report of that series is refused, and after each the server holds the whole normalised topology of that report, carried or not |
| Health.HeartbeatMeansUnchanged | go-runtime/agentlink/server.go:1750-1753 | a report without topology is accepted only if it refers to the topology the server holds |
| Plan.ManifestMap | go-runtime/providerapply/plan.go:91-97 | the entries of a manifest by line |
| Plan.CompareNew | go-runtime/providerapply/plan.go:36-44 | the additions and changes found in the candidate |
| Plan.CompareOld | go-runtime/providerapply/plan.go:45-49 | the removals found in the current manifest |
| Plan.CollectBlockers | go-runtime/providerapply/plan.go:50-77 | the reasons why a plan is not safe |
| Plan.BlockerKeyOrders | go-runtime/providerapply/plan.go:81-86 | sorting blockers by their key is sorting them by line and then by code |
| Plan.BuildPlan | go-runtime/providerapply/plan.go:29-89 | the result is a plan for the two manifests and the snapshot, in the declarative sense |
| Plan.PlanTurnsCurrentIntoCandidate | go-runtime/providerapply/plan.go:29-89 | added, changed and removed are disjoint and turn the current lines into the candidate's |
| Plan.PlanChangesAreDetermined | go-runtime/providerapply/plan.go:29-89 | two computations of a plan agree, whatever the order in which maps are walked |
| Plan.SafePlanSparesCalls | go-runtime/providerapply/plan.go:50-88 | a safe plan touches no line with a call, and only lines whose status is known |
| Plan.BlockersOnFields | go-runtime/providerapply/plan.go:50-77 | the blockers of a plan, line by line and code by code, from the preflight evidence |
| Plan.PlanIsSafeIff | go-runtime/providerapply/plan.go:50-88 | a plan is safe exactly if the evidence is of its catalog, nothing runs yet where it adds, and everything it replaces answers or is absent and has no call |
| Deployment.Deployment.BeginDrainLine | go-runtime/providerapply/drain.go:139-181 | what the provider of one line does with a drain, and the code of its answer, which may not say that it took effect |
| Deployment.Deployment.DrainWorkers | go-runtime/providerapply/drain.go:97-115 | over all lines: which are drained, which of them Core knows about, and whether any failed |
| Deployment.Deployment.Maintenance | go-runtime/providerapply/drain.go:59-137 | exactly when a drain request fails, what it then leaves drained, and whether a release is reported as failed |
| Deployment.Deployment.ReleasePartial | go-runtime/providerapply/drain.go:183-211 | the lines Core knows to be drained are released; it says so exactly if every release was confirmed |
| Deployment.DrainUnnoticed | go-runtime/providerapply/drain.go:156-171 | an apply whose provider drained and could not say so ends rolled back with the line still drained |
| Deployment.Journal.Before | go-runtime/providerdeploy/journal.go:108-120 | a step is recorded as pending while the receipt is open |
| Deployment.Journal.Settle | go-runtime/providerdeploy/journal.go:122-140 | completing or failing settles exactly one pending step |
| Deployment.Journal.Finish | go-runtime/providerdeploy/journal.go:142-150 | only a terminal state closes a receipt |
| Deployment.Deployment.DrainAll | go-runtime/providerdeploy/apply.go:100-117 | the drain as the apply sees it: it works if and only if Core accepts it, drains every line and is heard; recovery by hand is called for if and only if an answer that arrives reports a failed release |
| Deployment.Deployment.InspectUnits | go-runtime/providerdeploy/apply.go:185-211 | accepts exactly a host that can be probed and agrees with plan and snapshot |
| Deployment.Deployment.ForwardPhase | go-runtime/providerdeploy/apply.go:119-170 | it stops at the first failing call, and the host is then one the recorded progress can undo, up to what that call did in spite of failing; without failure it is the candidate's |
| Deployment.Deployment.RollbackBeforeCommit | go-runtime/providerdeploy/apply.go:281-341 | it succeeds exactly if no compensating step for the recorded progress fails and the drained lines are resumed within the deadline; everything recorded is then compensated |
| Deployment.Deployment.WaitForCandidate | go-runtime/providerdeploy/apply.go:213-247 | succeeds exactly if the providers register and the drained lines still hold the drain |
| Deployment.Deployment.ResumeCandidate | go-runtime/providerdeploy/apply.go:249-279 | succeeds exactly if the status is read and each drained line it shows is held by the lease it should be and is resumed; which lines are then resumed |
| Deployment.Deployment.ResumeLine | go-runtime/providerdeploy/apply.go:265-277 | one line's resumption under the lease that holds it |
| Deployment.Deployment.ResumeUntilDeadline | go-runtime/providerdeploy/apply.go:316-338 | it succeeds exactly if some attempt resumes every line and is heard, and no attempt before it resumed any |
| Deployment.Deployment.Replace | go-runtime/providerdeploy/apply.go:119-181 | the receipt, by which of the forward phase, the commit and the rollback works, and the host under each |
| Deployment.Deployment.ExecuteLocked | go-runtime/providerdeploy/apply.go:82-181 | the receipt an apply ends in is a function of plan, host and environment, and so is the host under a settled receipt; rolled back means the initial host if and only if Restores says so of the input |
| Deployment.CompensationRestores | go-runtime/providerdeploy/apply.go:281-341 | compensating any undoable progress gives back the initial host, up to the late effect of the step that failed |
| Deployment.RestoresIff | go-runtime/providerdeploy/apply.go:82-181 | a rolled-back receipt means the initial host if and only if nothing was touched, or the drain failed and left no line drained, or the forward call that failed had no effect or one that is undone |
| Deployment.AppliedIff | go-runtime/providerdeploy/apply.go:82-181 | applied means that the inspection, the drain, every forward call, the wait and the resumption worked, and nothing less |
| Deployment.RolledBackIff | go-runtime/providerdeploy/apply.go:281-341 | an apply that fails between drain and commit is rolled back exactly if every step it made can be taken back, every provider starts again and the drains are released and heard of |
| Deployment.StopsAtTheFirstFailure | go-runtime/providerdeploy/apply.go:110-165 | a series of steps is made up to the first failing one |
| Deployment.QuietAppliesIff | go-runtime/providerdeploy/apply.go:82-181 | where nothing fails, an apply on a consistent host ends applied, unless someone else holds a line it has to drain |
| Deployment.AppliedIsOpenIff | go-runtime/providerdeploy/apply.go:249-279 | under an applied receipt no candidate line is drained if and only if the status showed every one that was |
| Deployment.ForwardRecords | go-runtime/providerdeploy/apply.go:119-170 | what the forward phase has performed when it stops, kind by kind |
| Deployment.ReplaceRunning | go-runtime/providerdeploy/apply.go:82-181 | the everyday apply: a running provider is replaced, ends applied and takes calls again |
| Deployment.OverlookDrain | go-runtime/providerdeploy/apply.go:258-263 | an apply whose status does not show the new provider ends applied with its line drained |
| Deployment.ReturnApart | go-runtime/providerdeploy/apply.go:316-338 | a rollback whose two providers come back at different times ends in recovery by hand, though every step and every later attempt works |
| Deployment.FailurePassesOn | go-runtime/providerdeploy/apply.go:126-167 | the forward phase fails where the first of its loops fails, in the order stop, disable, switch, enable, start |
| Deployment.SwitchLate | go-runtime/providerdeploy/apply.go:144-149 | an apply whose switch fails after its rename ends rolled back with the candidate current |
| Deployment.LoseAnswer | go-runtime/providerdeploy/apply.go:105-117 | an apply whose drain answer is lost ends rolled back with the line still drained |
| Deployment.ReverseKeepsElements | go-runtime/providerdeploy/apply.go:281-341 | undoing in reverse order covers the same units |
| PlannedDeployment.PlansAreWellFormed | go-runtime/providerdeploy/apply.go:41-76 | the plan of two manifests names, each once, the lines that differ: what the transaction asks of its input |
| PlannedDeployment.StandingPlanIsAdmittedIff | go-runtime/providerdeploy/apply.go:41-76 | a plan of manifests that still stand is carried out exactly if it is safe and the link is the one it was made for |
| PlannedDeployment.AppliedMeansTheManifestIff | go-runtime/providerdeploy/apply.go:185-211 | of the lines of both manifests an applied host runs exactly the candidate's if and only if it ran the unchanged ones before, has exactly these enabled if and only if those in both were enabled before, and every planned line is as the candidate demands |
| PlannedDeployment.AppliedIsInPlace | go-runtime/providerdeploy/apply.go:41-181 | a host that matched the manifest its link stands for matches the candidate's after an apply |
| PlannedDeployment.Execute | go-runtime/providerdeploy/apply.go:41-76 | the transaction runs exactly if the evidence still holds and the plan is the plan of the two manifests; the receipt is the one specified; applied means the candidate manifest, rolled back means restored under the stated condition |
| ReleaseLinks.ReconcileForgetsThePast | go-runtime/releaseinstall/install.go:370-406 | from any disk without unmanaged entries, whatever a crash left, reconciling ends in exactly the links of the release |
| ReleaseLinks.ReconcilingServes | go-runtime/releaseinstall/install.go:297-406 | reconciling leaves a link for exactly the required roles and those the manifest carries, each to the file of its role, a new Xray link to the artifact |
| ReleaseLinks.PublishedServes | go-runtime/releaseinstall/install.go:297-338 | to hold a release is to serve exactly the roles of its manifest |
| ReleaseLinks.LeadsToItsArtifactsIff | go-runtime/releaseinstall/install.go:297-338 | the links lead to the artifacts of their roles if and only if these have the fixed names, which no check demands |
| ReleaseLinks.BetweenKeepsStrays | go-runtime/releaseinstall/install.go:370-406 | a reconciliation cut off anywhere leaves unmanaged entries as they were and adds none |
| ReleaseLinks.StaysTidyIff | go-runtime/releaseinstall/install.go:322-324 | reconciling for a release leaves only managed links if and only if its Xray artifact is named xray or the link existed already |
| ReleaseLinks.RenamedXrayBreaksTheNextReconcile | go-runtime/releaseinstall/install.go:340-342 | the exception occurs: a release whose Xray artifact has another name |
| ReleaseLinks.RolledBackHoldsIff | go-runtime/releaseinstall/install.go:95-117 | an activation that says it was rolled back has put the previous release back if and only if it did not switch to another release and fail to synchronise after the rename |
| ReleaseLinks.Installer.SwitchLink | go-runtime/releaseinstall/files.go:80-109 | the link changes exactly if the rename happens, and success is exactly that no call fails |
| ReleaseLinks.Installer.RestoreLink | go-runtime/releaseinstall/files.go:121-136 | the same for putting a link back or removing it |
| ReleaseLinks.Installer.ReconcilePath | go-runtime/releaseinstall/install.go:380-404 | one path: an unmanaged entry is refused untouched, otherwise the path is settled |
| ReleaseLinks.Installer.Reconcile | go-runtime/releaseinstall/install.go:370-406 | success exactly without unmanaged entries and faults, in any visiting order, with every disk on the way half-way between; the links are then those of the roles the manifest carries |
| ReleaseLinks.Installer.ReconcileTarget | go-runtime/releaseinstall/install.go:359-368 | the same for the release directory of a target, which must load |
| ReleaseLinks.Installer.StageRelease | go-runtime/releaseinstall/install.go:239-295 | the release directory appears whole or not at all, and an existing one must have the same contents |
| ReleaseLinks.Installer.OpenJournal | go-runtime/releaseinstall/journal.go:20-71 | an incomplete receipt is never archived or replaced; otherwise the new receipt is written |
| ReleaseLinks.Installer.Persist | go-runtime/releaseinstall/journal.go:73-107 | the receipt on disk is the old one or the new one |
| ReleaseLinks.Installer.Switchover | go-runtime/releaseinstall/install.go:87-117 | after a durable receipt every disk on the way is one an activation may leave; success exactly if no call fails; what a switch that fails late leads to |
| ReleaseLinks.Installer.Activate | go-runtime/releaseinstall/install.go:64-117 | succeeds if and only if the input is acceptable and no call fails, and the links then serve the manifest; if it ends rolled back the disk holds the previous release if and only if the switch did not fail late |
| ReleaseLinks.Installer.Restore | go-runtime/releaseinstall/install.go:172-183 | link, stable links, reload and receipt in this order, and how far it gets for every set of failing calls; success if and only if the previous release loads, nothing is unmanaged and nothing fails |
| ReleaseLinks.Installer.Recover | go-runtime/releaseinstall/install.go:164-184 | succeeds if and only if the disk is recoverable and nothing fails, and then the disk holds exactly the previous release and serves its manifest |
| ReleaseLinks.Installer.RollbackLatest | go-runtime/releaseinstall/install.go:134-162 | applies only to an applied receipt whose candidate is still current, and what it leaves for every set of failing calls |
| ReleaseRuns.LeavesKeepsInv | go-runtime/releaseinstall/install.go:64-184 | any disk any session may leave, ended or cut off, keeps the invariant |
| ReleaseRuns.EveryIncompleteDiskIsRecoverable | go-runtime/releaseinstall/install.go:164-184 | wherever a run of sessions is cut off, an incomplete receipt can be recovered from |
| ReleaseRuns.OnlyRecoveryProceeds | go-runtime/releaseinstall/journal.go:47-71 | over an incomplete receipt no other session changes a link or the receipt |
| ReleaseRuns.InterruptedActivationIsUndone | go-runtime/releaseinstall/install.go:64-184 | an activation cut off anywhere, then any sessions, recoveries cut off too: the first disk with a complete receipt has the links of the disk before the activation |
| ReleaseRuns.FailedActivationIsUndoneIff | go-runtime/releaseinstall/install.go:64-184 | an activation that opened its receipt and did not take effect, however it ended, then any sessions: the first disk that says rolled back has the original links if and only if the activation did not end by itself after a switch that failed late |
| ReleaseRuns.SwitchLate | go-runtime/releaseinstall/install.go:94-101 | that case occurs: one failing call, a rolled-back receipt, and the candidate current |
| ReleaseRuns.ExchangeRoles | go-runtime/releaseinstall/install.go:64-117 | an upgrade brings the role the new release adds and takes away the one it drops |
| ReleaseRuns.InterruptedRollbackRefuses | go-runtime/releaseinstall/install.go:134-162 | an explicit rollback cut off after its switch is refused when repeated, unless its two targets are the same |
| ReleaseRuns.CutRollbackShort | go-runtime/releaseinstall/install.go:150-158 | this occurs: an installed release, a rollback whose reload fails, and the same rollback refused afterwards |
| Common.JoinedKeyIsInjective | go-runtime/providermessages/store.go:700-702 | keys joined with NUL determine their parts, so they may be modelled as tuples |
| MessageStore.Store.Accept | go-runtime/providermessages/store.go:94-96 | the store and the outcome are those of the specified transaction |
| MessageStore.Store.AcceptWithNotificationTransport | go-runtime/providermessages/store.go:106-113 | the same for an event that queues a notification |
| MessageStore.Store.AcceptEvent | go-runtime/providermessages/store.go:115-187 | tombstone, correlation, dedupe, record, notification and links as one transaction that a conflict leaves without trace |
| MessageStore.Store.PutNotificationSource | go-runtime/providermessages/store.go:189-226 | a source is queued once; an acknowledged or equal one is left alone and a different one conflicts |
| Correspondence.QueuedOnceIff | go-runtime/providermessages/store.go:189-226 | what is queued for a notification, field by field, and when another source of its identity conflicts |
| Correspondence.CardsAre | go-runtime/providermessages/types.go:90-101 | cards are named by 4 to 32 decimal digits |
| Correspondence.IdentifiersAre | go-runtime/providermessages/types.go:136-147 | identifiers of ASCII text are 1 to 200 visible characters |
| Correspondence.NumbersHaveLimits | go-runtime/providermessages/types.go:103-134 | the numbers of a valid event may take any value within their limits and no other |
| Correspondence.IdentitiesAreIdentifiers | go-runtime/providermessages/types.go:103-134 | its identities any identifier |
| Correspondence.TextsHaveLimits | go-runtime/providermessages/types.go:103-134 | its texts what its kind allows |
| MessageStore.Store.AckNotificationSource | go-runtime/providermessages/store.go:265-296 | a cellular source becomes an emptied tombstone, any other is deleted |
| Correspondence.AcknowledgementSettles | go-runtime/providermessages/store.go:265-296 | an acknowledged source is no longer pending, and no other changes |
| MessageStore.Store.DeleteHistory | go-runtime/providermessages/store.go:411-477 | exactly the matching records are deleted and nothing else changes; invalid requests change nothing |
| MessageStore.Store.PurgeLine | go-runtime/providermessages/store.go:482-545 | a line loses its records, identities, links and queue and gains a tombstone |
| MessageStore.Store.RetainLine | go-runtime/providermessages/store.go:550-582 | a line loses its queue and gains a tombstone |
| MessageStore.Store.DropLine | go-runtime/providermessages/store.go:559-579 | exactly the sources of other lines remain |
| MessageStore.Store.HistoryPeers | go-runtime/providermessages/history.go:61-84 | the scan computes the specified resolution of message ids |
| MessageStore.Store.Conversations | go-runtime/providermessages/history.go:104-132 | one conversation for each thread, with its count and its newest record; whoever has a record in scope, as its sender or without one as its recipient, has one |
| MessageStore.Store.MessagePage | go-runtime/providermessages/history.go:152-212 | the newest matching records under the cursor, oldest first, and a cursor exactly if more match |
| MessageStore.NextPageCanBeAsked | go-runtime/providermessages/history.go:152-212 | the cursor of a page is a valid query for the next one |
| MessageStore.ConversationCanBePagedIff | go-runtime/providermessages/history.go:104-160 | a listed conversation can be paged exactly if its peer is at most 256 bytes long |
| Correspondence.LongPeerCannotBePaged | go-runtime/providermessages/history.go:152-160 | an acceptable event whose conversation is listed and refuses every page |
| MessageStore.TurnAround | go-runtime/providermessages/history.go:208-210 | the page is reversed in place |
| History.PeersNeverGuess | go-runtime/providermessages/history.go:61-84 | a message id is resolved to a peer if and only if that is the only peer the retained records name for it |
| History.ResolvedPeerIs | go-runtime/providermessages/history.go:52-93 | whose record it is, on the fields of the event: the trimmed sender, else the trimmed recipient, else whoever the message id names |
| History.SelectionOnFields | go-runtime/providermessages/history.go:152-212 | paging selects for a peer exactly the records from it and, without a sender, those to it |
| History.ConversationsListCorrespondents | go-runtime/providermessages/history.go:104-132 | every correspondent of a record in scope has a conversation |
| History.ScopesAgree | go-runtime/providermessages/history.go:61-93 | resolving within one line and transport or over the whole store gives the same peer |
| History.PageIsAnInterval | go-runtime/providermessages/history.go:152-212 | a page holds exactly the matching records between its two cursors |
| History.NothingIsShownTwice | go-runtime/providermessages/history.go:150-212 | following NextBefore, keys only descend from page to page, whatever is appended or deleted in between |
| History.EverythingKeptIsShownOnce | go-runtime/providermessages/history.go:150-212 | a record that is retained and keeps matching throughout is on exactly one page, also if what readers see of it changes between pages |
| History.PagesAreTheHistory | go-runtime/providermessages/history.go:150-212 | on an unchanged store the pages together are the filtered history in key order |
| History.ConversationsAgreeWithPaging | go-runtime/providermessages/history.go:104-212 | a conversation exists exactly if paging returns something for its peer, counts exactly that many and shows the newest |
| History.CountIsWhatPagingReturns | go-runtime/providermessages/history.go:104-212 | the count is the number of records a reader following the cursor is shown |
| History.AllConversationsAreTheScopedOnes | go-runtime/providermessages/history.go:102-132 | the conversations of the whole store are those of its scopes |
| History.ScopesAreDisjoint | go-runtime/providermessages/history.go:95-102 | a scope lists no thread of another line or transport |
| History.DeletionFiltersTheView | go-runtime/providermessages/store.go:411-477 | after a deletion readers see exactly what they saw less the matching records |
| History.DeletionOnFields | go-runtime/providermessages/store.go:411-477 | deleting a peer's history takes exactly the records from it and, without a sender, those to it |
| History.DeletionByIds | go-runtime/providermessages/store.go:411-477 | deleting by event ids takes exactly the records of these ids on the line and transport, deleting all takes all of them |
| History.DeletionTakesThePages | go-runtime/providermessages/store.go:411-477 | deleting a peer's history takes exactly what the pages of that peer show |
| History.DeletionIsValidIff | go-runtime/providermessages/store.go:411-430 | which deletions are served |
| History.DeletedPeerIsGone | go-runtime/providermessages/store.go:411-477 | after a peer's history is deleted no remaining record in scope resolves to that peer, though resolution is computed anew |
| History.OtherPeersKeepTheirRecords | go-runtime/providermessages/store.go:411-477 | deleting one peer's history leaves every record of another peer in place and resolved as before |
| MessageRuns.RunKeepsInv | go-runtime/providermessages/store.go:115-582 | over every run of accepts, replays, deletions, acknowledgements and retirements the store's invariant holds |
| MessageRuns.IdentityIsStoredOnce | go-runtime/providermessages/store.go:148-172 | each event identity is in at most one record |
| MessageRuns.DeletedNeverReappears | go-runtime/providermessages/store.go:408-410 | an event that was stored and is gone never comes back |
| MessageRuns.RetiredLineStaysSilent | go-runtime/providermessages/store.go:547-582 | a purged or retained line never gains another record or queued notification |
| MessageRuns.PurgedLineIsEmpty | go-runtime/providermessages/store.go:479-545 | a purged line has no record left, ever |
| MessageRuns.PurgeSparesOtherLines | go-runtime/providermessages/store.go:482-545 | a purge takes exactly the records of its line |
| MessageRuns.KeysAreNeverReused | go-runtime/providermessages/store.go:161-169 | a record key names the same record forever |
| MessageRuns.CellularIsNotifiedOnce | go-runtime/providermessages/store.go:265-289 | a cellular source acknowledged while pending is never pending again |
| MessageRuns.PendingUntilAcknowledged | go-runtime/providermessages/store.go:189-296 | nothing queued is lost until it is acknowledged or its line retired |
| MessageRuns.ReplayNotifiesAgainIff | go-runtime/providermessages/store.go:150-157 | a replay after the acknowledgement is queued again if and only if the transport is VoWiFi |
| MessageRuns.VowifiIsNotifiedTwice | go-runtime/providermessages/store.go:150-157 | the case occurs: a run that stores and queues a VoWiFi event, acknowledges it, and queues it again on replay |
| MessageRuns.NoEventIsShownTwice | go-runtime/providermessages/history.go:150-212 | along any run of the store a reader following the cursor is never shown the same event on two pages |
| MessageRuns.KeptEventIsShownOnce | go-runtime/providermessages/history.go:150-212 | along any run of the store an event that is retained and keeps belonging to the conversation is on exactly one of the reader's pages, though it may be resolved anew in between |
| Correspondence.NewsIsShown | go-runtime/providermessages/store.go:115-187 | a message just accepted is the newest on the first page of its correspondent |
| Correspondence.AcceptedIsShown | go-runtime/providermessages/history.go:150-212 | so along any run |
| Correspondence.NewsIsQueued | go-runtime/providermessages/store.go:189-226 | a new message of a line in use is queued for notification with its own sender and text |
| Correspondence.PendingIsAsReceived | go-runtime/providermessages/store.go:189-226 | along every run whatever is pending was queued by an operation with its sender, text and card, and not altered since |
| Correspondence.LinkStays | go-runtime/providermessages/store.go:160-187 | only another submission under the same reference, or the purge of the line, takes a message's link away |
| Correspondence.ReportFindsItsMessage | go-runtime/providermessages/history.go:32-50 | a delivery report that answers the call of a message is joined to that message, however long after and in whatever order they arrive |
| Correspondence.ReportResolvesIff | go-runtime/providermessages/store.go:316-345 | which link a report with one reference follows: its own transport's, else an unscoped one that no transport has claimed |
| Correspondence.ReportJoinsTheConversation | go-runtime/providermessages/history.go:61-93 | and is then shown in the conversation of the recipient |
| Correspondence.TransportIsInferred | go-runtime/providermessages/store.go:584-590 | the transport of an event that does not say |
| Correspondence.TransportIsRead | go-runtime/providermessages/history.go:34-50 | a record is read with the transport it was stored with, an older one with the inferred transport, and otherwise as stored |
| ProviderDirectory.Store.TryHeartbeat | go-runtime/mediaauth/providers.go:80-102 | the section before the line lock: a heartbeat refreshes, a changed identity is refused, anything else proceeds |
| ProviderDirectory.Store.InstallLocked | go-runtime/mediaauth/providers.go:104-126 | the section under the line lock: heartbeat, reuse refused, or a new generation |
| ProviderDirectory.SlashMakesNoDifference | go-runtime/mediaauth/providers.go:80-87 | a trailing slash of the base URL makes no other provider |
| ProviderDirectory.Store.RemoveLocked | go-runtime/mediaauth/providers.go:129-139 | removes only the named generation |
| ProviderDirectory.Store.LookLocked | go-runtime/mediaauth/providers.go:179-228 | what an operation is handed: nothing if absent or expired, a conflict if the fence differs, else the current provider |
| ProviderDirectory.OnlyWritersReplace | go-runtime/mediaauth/providers.go:80-139 | without a writer on its line no step changes which provider is current there |
| ProviderDirectory.NextKeepsInv | go-runtime/mediaauth/providers.go:80-228 | every step keeps lock discipline, directory and running callbacks consistent |
| ProviderDirectory.RunKeepsInv | go-runtime/mediaauth/providers.go:80-228 | so does every interleaving |
| ProviderDirectory.CallbackRunsOnTheCurrentProvider | go-runtime/mediaauth/providers.go:179-228 | throughout a callback the line's current provider is exactly the one handed to it, and matches the expected fence |
| ProviderDirectory.GenerationIsCurrentOnce | go-runtime/mediaauth/providers.go:112-126 | a generation that stopped being current never becomes current again |
| ProviderDirectory.GenerationHasOneIdentity | go-runtime/mediaauth/providers.go:88-102 | while it is current a generation has one identity, heartbeats included |
| ProviderDirectory.HeartbeatIsNeverBlocked | go-runtime/mediaauth/providers.go:88-102 | a heartbeat of the current provider is enabled in every state, callbacks running or not, and changes only its time |
| ProviderDirectory.UseCarriesThrough | go-runtime/mediaauth/providers.go:179-201 | where nobody writes, a use of a live provider runs its callback and leaves directory and locks as they were |
| ProviderDirectory.ReplacementCarriesThrough | go-runtime/mediaauth/providers.go:80-126 | on an unlocked line a replacement installs its provider and unlocks the line |
| ProviderDirectory.RemovalCarriesThrough | go-runtime/mediaauth/providers.go:129-139 | so does a removal |
| ProviderDirectory.LookAnswers | go-runtime/mediaauth/providers.go:179-228 | absent or expired is unavailable, live but not the expected provider is a conflict, anything else is handed out |
| ProviderDirectory.LookUpStartsCallbackIff | go-runtime/mediaauth/providers.go:179-228 | along every run a lookup that is not cancelled starts its callback if and only if the provider is live and the expected one |
| ProviderDirectory.LastSeenIsWord | go-runtime/mediaauth/providers.go:80-126 | along every run a current provider was last seen when there was word from that very provider |
| ProviderDirectory.CallbackStartsOnALiveProvider | go-runtime/mediaauth/providers.go:179-228 | so a callback starts only on a provider heard of within the time to live |
| ProviderDirectory.InstallAnswers | go-runtime/mediaauth/providers.go:104-126 | which registrations are carried out, and that the provider is found for its time to live afterwards |
| ProviderDirectory.RemovedIsUnavailable | go-runtime/mediaauth/providers.go:129-139 | a removed provider is unavailable at once and no other is touched |
| Frames.Sender.WriteAll | agent/cellular-io/mdd_cellular_io.c:109-119 | the wire is extended by a prefix of the data, by all of it on success, for every series of partial writes |
| Frames.Sender.SendFrame | agent/cellular-io/mdd_cellular_io.c:121-132 | on success exactly the encoding of the frame is on the wire |
| Frames.Receiver.ReadIPC | agent/cellular-io/mdd_cellular_io.c:1103-1127 | after any read the dispatched frames are those of the whole stream so far, and it fails exactly if the stream is refused; the buffer is never full on entry |
| Frames.Receiver.DispatchFrames | agent/cellular-io/mdd_cellular_io.c:1110-1127 | the loop dispatches what parsing the buffer yields and keeps the rest |
| Frames.Receiver.TakeFrame | agent/cellular-io/mdd_cellular_io.c:1111-1121 | one header and frame out of the buffer |
| Frames.Receiver.Discard | agent/cellular-io/mdd_cellular_io.c:1122-1125 | the unconsumed bytes move to the front |
| Frames.ParseContinues | agent/cellular-io/mdd_cellular_io.c:1103-1127 | parsing may be interrupted anywhere and continued behind the leftover |
| Frames.LeftoverIsShort | agent/cellular-io/mdd_cellular_io.c:1104-1104 | bytes that are not yet a frame are fewer than the buffer holds |
| Frames.SplitDoesNotMatter | agent/cellular-io/mdd_cellular_io.c:1103-1127 | every way of splitting a stream dispatches the frames of the whole stream and is refused exactly if it is |
| Frames.ParseInvertsEncode | agent/cellular-io/mdd_cellular_io.c:121-132 | parsing inverts the encoder, whatever follows |
| Frames.SentFramesArrive | agent/cellular-io/mdd_cellular_io.c:1103-1127 | frames sent arrive, however the socket cuts them up |
| AtParser.Parser.FinishLine | agent/cellular-io/at_response.c:35-60 | the classification of the buffered line, after trimming and up to the first NUL |
| AtParser.Parser.Feed | agent/cellular-io/at_response.c:62-92 | the batch's result, the unfinished line and the provisional result are those of scanning its bytes; the index stays inside the buffer |
| AtParser.ScanContinues | agent/cellular-io/at_response.c:62-92 | scanning may be interrupted anywhere and continued |
| AtParser.RejectedIff | agent/cellular-io/at_response.c:35-92 | the parser rejects a stream if and only if some complete line is rejecting or some run of bytes overlong |
| AtParser.LineMeans | agent/cellular-io/at_response.c:35-60 | which lines reject and which promise success, under each policy |
| AtParser.CaseIsIgnored | agent/cellular-io/at_response.c:7-18 | answers are compared up to the case of letters |
| AtParser.WordsEnd | agent/cellular-io/at_response.c:12-16 | an answer begins with a word only if the word is followed by nothing, a space or a colon |
| AtParser.AtCommand | agent/cellular-io/mdd_cellular_io.c:246-298 | the answer of the command loop over the batches that arrive, and over a transfer that fails after them |
| AtParser.FailureDependsOnlyOnTheBytes | agent/cellular-io/mdd_cellular_io.c:246-298 | for calls and data a command succeeds if and only if no transfer fails, the answer fits, nothing in it rejects, and some line promises success, however USB split it |
| AtParser.SuccessIsProvisional | agent/cellular-io/at_response.c:84-92 | for these policies feeding never reports success |
| AtParser.StandardDependsOnTheSplitIff | agent/cellular-io/at_response.c:62-92 | an ordinary command's answer depends on the split if and only if an OK comes first and a rejection follows |
| AtParser.OkThenErrorDependsOnTheSplit | agent/cellular-io/at_response.c:62-92 | it does happen, with a concrete stream |
| AtParser.KindDependsOnTheSplitIff | agent/cellular-io/at_response.c:84-92 | whether a successful call or data answer says OK or CONNECT depends on the split if and only if a CONNECT is followed by a last OK |
| AtParser.ConnectThenOkDependsOnTheSplit | agent/cellular-io/at_response.c:84-92 | it does happen: CONNECT followed by OK, read at once or in two batches |

## Left out

- Deployment.Deployment.ExecuteLocked: does not model failing receipt writes, because the model takes them to succeed; a
  failed write would leave a step pending and the receipt unsettled. The deadlines are counts of attempts, and no one but
  the apply drains or resumes a line while it runs.
- PlannedDeployment.Execute: takes the directories that load as given, because their checks read one directory each.
- ReleaseLinks.Installer.StageRelease: does not model the copying of single files, because they appear by one rename.
- MessageStore.Store.DeleteHistory, MessageStore.Store.PurgeLine and MessageStore.Store.RetainLine do not model stored
  values that fail to decode or validate, because only validated values are written (`MessageRuns.RecordsValid`).
- MessageStore.Store.Conversations: does not model the order of the list, because ties on time and peer make it arbitrary.
- MessageStore.Store.MessagePage: takes the cursor as a number, because its decimal form on the wire is a conversion.
- AtParser.AtCommand: does not model the deadlines, because which batches arrive before them is its input; the mapping
  from a command to its policy is not modelled either.
- Health.Reporter.ReportOnce: takes the checks on the fields of single facts as a parameter, because only the ordering
  rules matter to the channel; facts are reduced to their keys, the masked fields and a rest.
- ProviderDirectory.Store.TryHeartbeat: does not model the checks of ids and URLs, because they read one argument.
- Maintenance.Server.RegisterRequest: does not model the sending of the request and the waiting for its reply beyond the
  steps of the runs, because they are I/O.
- Frames.Receiver.ReadIPC: does not model what handling a dispatched frame does, because it never touches the buffer.
- HTTP, WebSocket and TLS plumbing, JSON, strict decoding, status codes and the text form of negotiated features.
- Key derivation, hashing and comparison in constant time.
- File modes, owners, locks on files, systemd, and the order in which directories reach the disk after a failed sync.
- Removal of releases and the checks on release bundles; listing, window and lookup queries of the message store; the
  limit and order of pending notifications.
- The large validators of envelopes and facts, card routing, device defaults and modem events of the Agent server.
- The SIM event parser and the draining of pending modem output before a command.
- Progress of waiting operations: the models say what may happen, not that a waiting writer is eventually served.
- libusb, lwIP, PPP, audio, and the web and Android user interfaces.
