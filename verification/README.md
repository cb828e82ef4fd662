# Verified model of the relay server

A server pairs "connectors" (coding-agent plugins) with phones, gives both rotating credentials and
single-use tickets, and relays opaque frames between their live sockets. This project models the five
parts whose promises span many calls and proves them:

- **the live relay** (`RelayHub.dfy`, `RelayRace.dfy`, `RelayDelivery.dfy`): the peer table, the bounded queues and every
  goroutine around them as a step system in which a section under the hub's mutex, one stop and one enqueue
  are separate steps, interleaved with revocations that commit first and sweep later;
- **pairing, credentials, trust and tickets** (`ConnectorTypes.dfy`, `ConnectorStore.dfy`,
  `PairingSpec.dfy`, `CredentialSpec.dfy`, `ConnectorService.dfy`; the theorems over runs about what never happens
  in `ConnectorRuns.dfy`, `PairingHistory.dfy`, `ConfirmationRuns.dfy`, `CredentialHistory.dfy`, `CredentialRuns.dfy`,
  `RevocationRuns.dfy`, `TicketRuns.dfy`, and about when each call is answered and what it then writes in
  `ChallengeRuns.dfy`, `PairingAnswers.dfy`, `TrustRuns.dfy`, `CredentialAnswers.dfy`, `TicketAnswers.dfy`,
  `PairingExample.dfy`; `PairingMigration.dfy`; `ClaimLimits.dfy`, `ClaimRuns.dfy` and `ClaimInterleavings.dfy` for
  the caps on wrong codes, call by call and under concurrency);
- **accounts, sessions, mailed codes and Google linking** (`IdentityStore.dfy`, `IdentityHistory.dfy`,
  `SessionRuns.dfy`, `VerificationRuns.dfy`, `GoogleRuns.dfy`, `SignInRuns.dfy`, `IdentityService.dfy`);
- **the parts together** (`RelayAndService.dfy`, `AnnouncedRevocations.dfy`): what the relay may assume of the
  services, and the way from the
  announcement of a session's end or of a revoked device or connector to the stop of its sockets;
- **the rate limiter** (`RateLimiter.dfy`, `RateLimitRuns.dfy`);
- **code generation and the password-hash string** (`RandomSource.dfy`, `Positional.dfy`, `VerificationCodes.dfy`,
  `UserCodes.dfy`, `Base64.dfy`, `PasswordHash.dfy`), and the **database pools** (`ConnectionPools.dfy`).

## How it is built

A table is a map with its unique columns as invariants. A service method is a class method over a `store`
field: it works on a local copy, and either the copy becomes the store (commit) or it does not (rollback).
Its `ensures` equates the new store and the answer with a function of the old store and the inputs; the
theorems are about sequences of such calls from an empty store (connectors) or from any store of accounts
older than verification (identity). They come in pairs: one kind says what no run ever does, the other, by the
fields of the rows before and after and not by the functions the methods are equated with, exactly when a call is
answered and what it leaves behind. The calls into the identity module that connector transactions make are
inputs of each call (`Auth`), as are the clock, the chance values and the outcome of signature checks.
`RelayAndService` composes the two machines: the relay's admissions are the service's, and what the relay
machine demands of an authorization check is what `ValidateAdmission` is proved to answer.
`AnnouncedRevocations` adds the identity machine, whose answers those checks ask for.

SHA-256, HMAC and Argon2 are injective constructors; random values are numbered by draw, so two draws differ.
Times are integers in nanoseconds. Identity runs assume clock readings that do not decrease from one
transaction to the next; connector runs assume nothing about the clock, except where `ClaimRuns` counts wrong codes over
time (what becomes of the caps without that assumption is the subject of `ClaimInterleavings`).

## Where the code is not what one might think

- The cap of ten wrong pairing codes per account does not hold in every sliding hour: a claim of another
  account whose clock is ahead purges rows that a delayed claim should still count. It holds in every window
  shorter than an hour by the longest delay between reading the clock and counting, and in no longer one
  (`AccountCapHoldsIff`, witness `LateClaimEscapes`).
- What a refused account is told is exact for as long as clocks agree: a claim short of the announced moment by more
  than the longest delay is refused again, and from that moment on only a further failure of the account refuses it
  (`WaitIsExact`).
- The global cap of 120 a minute is exceeded by up to one less than the number of claims open at once, and by
  no more (`GlobalCapIs`).
- The least bound on what the rate limiter admits per client in a stretch of one window length is not `maximum` but
  `2 * maximum - 1` (`AdmissionBoundIs`). Evicting a client is always visible in its later verdicts, and nothing else
  ever is (`EvictionIsVisible`); for windows longer than one tick it does not only give the client more: some later
  request is refused that the forgotten window would have admitted (`EvictedCanBeRefusedIff`).
- `normalizeUserCode` is not idempotent: dashes are removed after trimming, so white space behind an outer dash stays
  (`NormalizeIsIdempotentIff`, `NormalizeTwiceDiffers`).
- `parsePasswordHash` accepts more than was ever printed: leading zeros and blanks, a sign before the version, text
  behind the version or the last figure, line breaks in salt and key. Exactly the texts without any of these print
  back to themselves (`RoundTripsIff`, witness `TrailingTextIsAccepted`).
- A Google sign-in that loses a race is not always retried: if it misses the winner's link but already finds
  the winner's account, it is refused as linked to another identity (`LoserCanBeRefused`,
  `LoserIsReachable`), although the comment on the loop says a retry resolves it. Nor is one retry enough: a third
  sign-in that links in between can make the second attempt conflict too (`RetryConflictsIff`, `RetryCanConflict`).
- With one shared database pool the server can stall as soon as as many connector transactions are open as
  the pool has connections (`SharedPoolStallsIff`).

## Model

| member | source | states |
|---|---|---|
| ConnectionPools.SeparatePoolsNeverStall | cmd/server/setup.go:24-38 | with two pools of any sizes of at least one, every state any run reaches is finished or has an enabled step |
| ConnectionPools.SeparatePoolsProgress | cmd/server/setup.go:46-72 | in every unfinished state a step is enabled that lowers a bounded measure, because connector transactions wait for identity connections and never the reverse |
| ConnectionPools.SharedPoolStallsIff | internal/connectors/service.go:255-258 | with one pool of n connections a stuck state is reachable exactly when at least n of the transactions call into identity |
| ConnectionPools.RunKeepsPools | cmd/server/setup.go:198-212 | no run hands out more connections than a pool has |
| RelayPeers.PeerKeyIsInjective | internal/relay/production.go:359 | two peers share a table key only if account and key ID agree, for key IDs without a colon |
| RelayPeers.SecurePeer.Enqueue | internal/relay/production.go:311-322 | the queue stays within 64, keeps what it held in order and grows by the item exactly when it is accepted; a refused item leaves the peer stopped, and a live peer is stopped only by a full queue |
| RelayPeers.SecurePeer.Stop | internal/relay/production.go:324-326 | closing is once and for all and leaves the queue |
| RelayPeers.SecureHub.RegisterLocked | internal/relay/production.go:372-393 | the section under the mutex: the newcomer takes its key and no other entry changes, whoever held it is returned for stopping, and listed once each are exactly the table's peers of the account in the opposite role that hold its key and whose key it holds |
| RelayPeers.SecureHub.UnregisterLocked | internal/relay/production.go:403-423 | only a peer that still holds its key leaves, and exactly those of the account in the opposite role that hold its key are to hear of it |
| RelayPeers.SecureHub.RouteLocked | internal/relay/production.go:439-457 | a frame is accepted exactly when the sender holds the recipient's key and whoever stands there is of the opposite role and holds the sender's; it goes to that peer, or is dropped when nobody is there |
| RelayPeers.SecureHub.DisconnectLocked | internal/relay/production.go:461-468 | the sweep lists exactly the table's peers of the account whose admission is for the connector, the device or the session the revocation names, or all of the account when it names none |
| RelayPeers.SecureHub.CloseLocked | internal/relay/production.go:476-483 | closing empties the table and lists everyone who stood in it |
| RelayRace.RevocationReachesEveryPeer | internal/relay/production.go:72-77 | in every interleaving, once a revocation's sweep has read the table every covered peer that ever registered is stopped, owed a stop, or its first check is outstanding and its check and lease are running or about to |
| RelayRace.RevocationTakesEffect | internal/relay/production.go:72-77 | a covered peer whose first check came to a verdict and whom nobody owes a stop is stopped |
| RelayRace.SweptPeersAreStopped | internal/connectors/types.go:256-271 | in every run a sweep that names a device, a connector, a session or a whole account stops every checked peer of it whom nobody owes a stop |
| RelayRace.CoveredBeforeItsCheck | internal/relay/production.go:193-225 | a revocation committed before a peer's first verdict keeps that peer from ever passing unstopped |
| RelayRace.LeaseEndsService | internal/relay/production.go:172-174 | once the authorization has run out, a served peer nobody stops has its lease ready to fire, however often checks fail |
| RelayRace.SweptRunExists | internal/relay/production.go:459-474 | a run in which a peer joins, is covered by a committed revocation and is stopped by its sweep |
| RelayRace.SweptRunsExist | internal/relay/production.go:459-474 | such runs for the revocation of any device, of any connector, and for the end of any session |
| RelayRace.StepKeepsAccounted | internal/relay/production.go:393-399 | every peer that ever registered is in the table, stopped, or owed a stop by its replacer, its teardown, a sweep, its check, its lease or shutdown |
| RelayRace.OneLivePeerPerIdentity | internal/relay/production.go:372-401 | of two peers registered under one account and key, at most one is neither stopped nor owed a stop |
| RelayRace.FramesAreMutual | internal/relay/production.go:439-457 | every frame and hello ever queued joins two peers of one account in opposite roles that trust each other; an offline notice needs only the receiver's trust |
| RelayRace.DeliveryIsInOrder | internal/relay/production.go:311-350 | a queue never exceeds its capacity and is the newest part of what was put in, in order |
| RelayDelivery.PartnersMeet | internal/relay/production.go:372-400 | in every reachable state two live peers of one account in opposite roles that hold each other's key have each other's greeting in their log, or a thread is still to put it there |
| RelayDelivery.FrameArrives | internal/relay/production.go:439-457 | along every further run a frame for such a peer is put in its queue or still on its way, unless the peer is stopped |
| RelayDelivery.StrangersEndTheSender | internal/relay/production.go:187-189 | a frame for a key the sender does not hold leaves the sender owed a stop |
| RelayDelivery.DepartureIsTold | internal/relay/production.go:403-437 | when the peer that holds its key unregisters, every peer of the account in the opposite role that holds its key is told, unless it is stopped |
| RelayAndService.FramesAreVouchedFor | internal/connectors/service.go:1282-1294 | every frame travelled between peers whose tickets, when consumed, were each backed by an unrevoked trust row naming the other |
| RelayAndService.ChecksAreHonest | internal/connectors/service.go:1128-1168 | whatever ValidateAdmission answers is a verdict the relay machine allows at that moment: a check never passes a peer that a committed revocation covers |
| AnnouncedRevocations.PlayedIsRun | cmd/server/setup.go:179-214 | every joint history of identity, connector service and relay, in which checks take whatever verdict the services' answers give, is a run of the guarded relay machine: no check passes a peer that an announced and committed revocation covers |
| AnnouncedRevocations.AnnouncedIsStopped | cmd/server/setup.go:179-205 | once the sweep for an announced session or inactive account has read the table, every peer of it whose first check came to a verdict and whom nobody owes a stop is stopped, in every such history |
| AnnouncedRevocations.RevokedDeviceIsStopped | internal/connectors/service.go:1046-1084 | in every such history, once the sweep for what an account's revocation of a device announced has read the table, every checked peer of that account and device whom nobody owes a stop is stopped |
| AnnouncedRevocations.RevokedConnectorIsStopped | internal/connectors/service.go:1004-1038 | the same for an account that revokes a connector |
| AnnouncedRevocations.SelfRevokedConnectorIsStopped | internal/connectors/service.go:966-998 | the same for a connector that revokes itself: its peers are those of the row its credential is live in |
| AnnouncedRevocations.JointHistoryExists | cmd/server/setup.go:179-214 | a history of sign-in, logout, one socket and one check in which a session's end is announced, committed, swept and its socket stopped |
| ConnectorRuns.StepKeeps | internal/connectors/postgres/store.go:18-22 | every call keeps the invariant of all tables and only moves rows forward |
| ConnectorWrites.CompletionWrite | internal/connectors/service.go:464-476 | completing a pairing and giving its connector the derived credential keeps every credential with one holder |
| ConnectorService.Service.IssueChallenge | internal/connectors/service.go:167-189 | commits one fresh unused challenge for a known purpose, which for devices needs an account, and refuses without a write otherwise |
| ConnectorService.Service.BeginPairing | internal/connectors/service.go:191-241 | uses the connector's challenge, expires overdue pairings of the key and opens a new one, or refuses when a code or an open pairing of the key collides |
| ConnectorService.Service.ClaimPairing | internal/connectors/service.go:243-340 | binds account and device to the pairing of the code; a wrong or late code commits its challenge and its failure, a conflict rolls even that back |
| ConnectorService.Service.ConfirmPairing | internal/connectors/service.go:360-493 | a first confirmation completes the pairing and writes device, connector, credentials and trust in one commit; a repeat answers from what was written |
| ConnectorService.Service.PollPairing | internal/connectors/service.go:495-590 | answers by the pairing's state, expiring it when its time is over, and derives the connector's credential from the secret once completed; includes the branch for a confirmed pairing that no run reaches |
| ConnectorService.Service.ApprovePairing | internal/connectors/service.go:600-658 | approves once, for the key that was shown, in time; repeats change nothing |
| ConnectorService.Service.CancelPairing | internal/connectors/service.go:660-689 | expires an open pairing for a holder of its secret, answers an expired one alike, and refuses a completed one |
| ConnectorService.Service.RotateDeviceCredential | internal/connectors/service.go:701-746 | writes a fresh pending credential and nothing else, for the holder of the live one under a granted account and session |
| ConnectorService.Service.ActivateDeviceCredential | internal/connectors/service.go:751-803 | promotes the pending credential in time, or answers a repeat without a write |
| ConnectorService.Service.RotateConnectorCredential | internal/connectors/service.go:850-891 | writes a fresh pending credential and nothing else, for the holder of the connector's live one under a granted account |
| ConnectorService.Service.ActivateConnectorCredential | internal/connectors/service.go:896-945 | promotes the connector's pending credential in time, or answers a repeat without a write |
| ConnectorService.Service.RevokeConnector | internal/connectors/service.go:966-998 | revokes by credential and announces; a revoked connector is announced again, an expired one refused |
| ConnectorService.Service.RevokeAccountConnector | internal/connectors/service.go:1004-1038 | revokes by account; missing and foreign rows get one answer |
| ConnectorService.Service.RevokeAccountDevice | internal/connectors/service.go:1046-1084 | the device, its pending rotation and all its trust end in one commit |
| ConnectorService.Service.IssueBrowserTicket | internal/connectors/service.go:1177-1236 | drops the pending rotation and issues a ticket whose authorization ends with the credential or the access token, whichever is first |
| ConnectorService.Service.IssueConnectorTicket | internal/connectors/service.go:1170-1236 | drops the pending rotation and issues a ticket whose authorization ends with the connector's credential |
| ConnectorService.Service.ConsumeRelayTicket | internal/connectors/service.go:1238-1304 | consumes once, checks the subject's row and the account again, and admits with the trust of that moment for at most five minutes |
| ConnectorService.Service.ValidateAdmission | internal/connectors/service.go:1128-1168 | a check passes exactly when the subject's row is still the admission's, unrevoked and unexpired, activated for a client, and identity grants what the role needs; with all grants the only refusal is unauthorized |
| ConnectorRuns.StepEdge | internal/connectors/service.go:284-317 | everything one call can do to a pairing row: nothing, run out, be claimed, be approved, be confirmed, each with the call and answer that go with it |
| ChallengeRuns.IssueAnswersIff | internal/connectors/service.go:167-189 | in every run exactly when a challenge is handed out, and the fresh row that stands for it |
| ChallengeRuns.ChallengeOpenIff | internal/connectors/service.go:217-226 | a challenge is open for its own purpose and account, for one lifetime, until a call that begins a pairing, claims one or answers a wrong or late code commits its use |
| PairingAnswers.BeginAnswersIff | internal/connectors/service.go:191-241 | a pairing is begun exactly with a proven key and an open challenge when no pairing has its code and none of its key is open and in time; the row it starts with |
| PairingAnswers.ClaimAnswersIff | internal/connectors/service.go:243-340 | exactly when a claim binds the pending pairing its code names, what it binds, and that a wrong code is answered exactly when no pairing has the code |
| PairingAnswers.ConfirmAnswersIff | internal/connectors/service.go:421-476 | a first confirmation goes through exactly for what was claimed and approved, in time, with neither row revoked or foreign; the two credentials, the trust and the answer it leaves |
| PairingAnswers.RepeatAnswersIff | internal/connectors/service.go:387-412 | a repeated confirmation is answered exactly while its time lasts and both rows hold what the first gave them |
| PairingAnswers.PollAnswersIff | internal/connectors/service.go:495-590 | a poll tells the holder of the secret how the pairing stands, and hands out the connector's credential exactly from completion until the time is over, the connector is revoked or its credential has moved on |
| PairingAnswers.ApproveAnswersIff | internal/connectors/service.go:600-658 | exactly when an approval is taken, and that the first one is kept |
| PairingAnswers.CancelAnswersIff | internal/connectors/service.go:660-689 | a pairing is cancelled exactly for the holder of its secret before it completes, and is then expired; nothing else changes |
| PairingHistory.CompletedMeansConsent | internal/connectors/service.go:374-421 | every pairing that ever completed was claimed by its account with one device, then approved for exactly that device's key by a holder of the pairing secret, then confirmed by that account, all in time, and its device never changed |
| PairingExample.PairingCompletes | internal/connectors/service.go:191-493 | for any account, keys and code the six calls from two challenges to the confirmation complete the pairing; the whole store they leave |
| PairingExample.PairMeets | internal/connectors/service.go:1238-1304 | and with a ticket each both sides are then admitted, each with exactly the other's identity in its snapshot |
| PairingHistory.StatesMoveUp | internal/connectors/service.go:495-689 | pairing states only move up pending, verification, completed, expired; confirmed is unreachable; a completed pairing expires only by a call made after its time |
| PairingHistory.OneOpenPairingPerKey | internal/connectors/postgres/models.go:185-189 | at no moment are two pairings of one connector key open |
| PairingMigration.PairingTable.Migrate | internal/connectors/postgres/models.go:161-189 | after the ordered updates exactly the newest usable open row of each key is still open, nothing else changed, and the unique index holds |
| PairingMigration.NewestSurvives | internal/connectors/postgres/models.go:161-184 | from any rows, which rows survive, that no others change, and that no two open rows share a key |
| PairingMigration.UsableKeysSurvive | internal/connectors/postgres/models.go:161-184 | a key with a usable open pairing keeps one |
| PairingMigration.MigrateIsIdempotent | internal/connectors/postgres/models.go:161-189 | running the clean-up again changes nothing |
| ConfirmationRuns.ConfirmationsAgree | internal/connectors/service.go:387-412 | all successful confirmations of one pairing give the same device, connector, credential and expiry |
| ConfirmationRuns.RefusedOnceMovedOn | internal/connectors/service.go:387-412 | once the device or the connector has left the credential a confirmation gave it, every later confirmation of that pairing is refused |
| ConfirmationRuns.TranscriptsAgree | internal/connectors/service.go:1313-1318 | whatever transcripts claim and poll ever show for one pairing are the same |
| CredentialHistory.StepRowEdge | internal/connectors/service.go:701-962 | everything one call can do to a device or connector row: rotation, promotion, cancellation by a ticket, confirmation, revocation |
| CredentialAnswers.DeviceAnswersIff | internal/connectors/service.go:691-803 | in every run, exactly when a device rotates, activates, is revoked or gets a ticket, the answer, the row, ticket and trust it leaves, and that every other call is refused without a write |
| CredentialAnswers.ConnectorAnswersIff | internal/connectors/service.go:850-1038 | the same for a connector's rotation, activation, revocation by itself or its account, and ticket, each answered for the one row its credential belongs to |
| CredentialRuns.LiveChangesOnlyBy | internal/connectors/service.go:453-469 | a live credential and its expiry change only by activating a pending rotation in time or by a first confirmation, which leaves the pending rotation alone |
| CredentialRuns.DisplacedIsGone | internal/connectors/service.go:748-803 | a credential that stopped being live is never held by any device or connector again |
| CredentialRuns.DroppedRotationIsGone | internal/connectors/service.go:805-820 | a rotation that was replaced, cancelled or cleared can never become live |
| CredentialRuns.ActivationIsNewestRotation | internal/connectors/service.go:896-945 | an activation commits the value of the row's last rotation, in time, with no ticket issued on the row in between |
| RevocationRuns.RevokedIsFrozen | internal/connectors/service.go:1046-1084 | a revoked row is never written again, and a revoked device has no unrevoked trust |
| RevocationRuns.RevokedIsNeverServed | internal/connectors/service.go:1177-1304 | no later claim, confirmation, poll, rotation, activation, ticket, consumption or check is answered for a revoked row |
| RevocationRuns.AnnouncedIsCommitted | internal/connectors/service.go:966-1084 | what OnRevoked is told has been committed |
| RevocationRuns.CoveredAdmissionFailsItsChecks | internal/connectors/types.go:256-271 | after the announcement every covered admission fails every check with an authorization error |
| TicketRuns.ConsumedOnce | internal/connectors/service.go:1245-1251 | a ticket admits at most once in any run |
| TicketAnswers.TicketAdmitsIff | internal/connectors/service.go:1238-1304 | from its issue on a ticket admits exactly when it has not admitted before, in time, while identity grants its account and session and its row is unrevoked; whom it admits and until when |
| TicketAnswers.TicketIsOfRow | internal/connectors/service.go:1177-1236 | every ticket handed out in a run is of one row with a live credential |
| TicketAnswers.CheckAnswersIff | internal/connectors/service.go:1128-1168 | a check passes exactly while the admission's row stands unrevoked and unexpired and identity grants what the role needs |
| TicketRuns.LeaseIsBounded | internal/connectors/service.go:1286-1297 | every admission goes back to one issue for the same subject, account and session; its lease ends after consumption and no later than five minutes on, the credential's expiry and the access token's |
| TicketRuns.AdmissionsAreSound | internal/connectors/service.go:1260-1297 | the subject's row stood, the snapshot was backed, no key ID has a colon |
| TicketRuns.TrustIsSymmetric | internal/connectors/postgres/store.go:204-230 | of an unrevoked device and an unrevoked connector of one account, each is in the other's snapshot or neither is |
| TrustRuns.TrustIff | internal/connectors/postgres/store.go:189-202 | in every reachable state a device and a connector trust each other exactly when a pairing between them was confirmed and the device is not revoked |
| TrustRuns.SnapshotIsExact | internal/connectors/postgres/store.go:204-230 | an admitted side is shown exactly the unrevoked rows of the other side that a confirmed pairing of its account joined it to |
| ClaimInterleavings.RunKeepsCap | internal/connectors/postgres/store.go:232-268 | in every interleaving the table never holds more than ten rows of one account, and committed rows stay in the history |
| ClaimInterleavings.RefusalIsExact | internal/connectors/service.go:345-358 | in every reachable state a refused account has exactly ten counted failures, and the announced wait is the first moment they stop refusing it, rounded up to a second |
| ClaimInterleavings.WaitIsExact | internal/connectors/service.go:345-358 | along every further run: a claim short of the announced moment by more than the longest delay is refused, one at or after it is not unless the account failed again |
| ClaimLimits.CheckFailures | internal/connectors/service.go:345-358 | the counts and the oldest counted failure give the specified verdict |
| ClaimRuns.WrongCodeIsRecorded | internal/connectors/service.go:276-279 | in every run a wrong code leaves one new row of its account and moment beside every row younger than an hour, and nothing else writes to that table |
| ClaimRuns.TableCountsGuesses | internal/connectors/postgres/store.go:232-268 | when clocks do not run backwards the rows counted are exactly the wrong codes answered |
| ClaimRuns.CappedIff | internal/connectors/service.go:345-358 | a claim that reaches the caps is told to wait exactly when ten wrong codes were answered to its account within the hour or 120 to anyone within the minute |
| ClaimRuns.GuessesAreCapped | internal/connectors/service.go:254-291 | over any run at most ten wrong codes are answered to one account in any hour and 120 to everyone in any minute |
| ClaimInterleavings.GlobalCapIs | internal/connectors/service.go:254-291 | with k claims open at once the failures committed in any minute are at most 119 + k, and that many are reachable |
| ClaimInterleavings.AccountCapHoldsIff | internal/connectors/postgres/store.go:232-268 | at most ten failures per account commit in every window of a length exactly when it is at most an hour less the longest delay |
| ClaimInterleavings.LateClaimEscapes | internal/connectors/postgres/store.go:261-268 | a reachable state with eleven failures of one account within the hour |
| ClaimInterleavings.RunKeepsRoom | internal/connectors/postgres/store.go:232-259 | every step keeps the room both caps leave, and purging removes no row a window in reach still needs |
| IdentityProofs.RefreshedKeeps | internal/identity/service.go:550-577 | a refresh keeps exactly one unused credential per session and all other invariants |
| IdentityHistory.StepKeeps | internal/identity/postgres/store.go:22-29 | every identity call keeps the invariant and moves rows forward |
| IdentityService.Service.Register | internal/identity/service.go:106-214 | a free address gets a pending account with a code, a taken one a decoy challenge backed by no row, and each its audit event |
| IdentityService.Service.Login | internal/identity/service.go:216-330 | decides on the account as read before the transaction: a session for an active one, a rotated ticket that keeps a young code for a pending one, a refusal otherwise |
| IdentityService.Service.VerifyEmail | internal/identity/service.go:335-406 | a right code in time activates the account and starts a session; a wrong one commits its attempt |
| IdentityService.Service.ResendVerification | internal/identity/service.go:411-474 | mails a new code under a new ticket, at most every thirty seconds |
| IdentityService.Service.RefreshTokens | internal/identity/service.go:476-599 | rotates the session's credential, revokes the session on reuse, expiry or an inactive account, and announces exactly what it revoked |
| IdentityService.Service.Logout | internal/identity/service.go:601-637 | revokes and announces the session of the token, and answers alike when there is none |
| IdentityService.Service.GoogleSignIn | internal/identity/google.go:86-122 | one pass signs in a linked subject, links or creates an account, or refuses, with lookups that may miss rows committed meanwhile |
| IdentityService.Service.AuthenticateWithGoogle | internal/identity/google.go:31-74 | at most two attempts, each with its own clock and with whatever others committed in between; the second only after a conflict, and its answer stands |
| SessionRuns.OneUnusedPerSession | internal/identity/service.go:693-737 | every session always has exactly one unused refresh credential, which expires with it, and its access token outlives it by less than one access lifetime |
| SessionRuns.RefreshSucceedsOnce | internal/identity/postgres/store.go:441-457 | a refresh token succeeds at most once |
| SessionRuns.ReuseEndsTheFamily | internal/identity/service.go:515-531 | presenting a token again leaves its session revoked for good |
| SessionRuns.RevokedFamilyIsDead | internal/identity/service.go:532-540 | no token of a revoked session ever succeeds |
| SessionRuns.FamilyExpiryIsFixed | internal/identity/service.go:562-569 | every refresh hands out the expiry the family started with |
| SignInRuns.RefreshSucceedsIff | internal/identity/service.go:476-599 | from the answer that handed it out a refresh token succeeds exactly once, before the family's expiry, as long as no call ended the session and the account is active |
| SignInRuns.RefreshDecides | internal/identity/service.go:500-594 | what presenting a known token writes and announces in every case |
| SignInRuns.SessionAuthorizesIff | internal/identity/service.go:676-685 | the access an answer hands out authorizes its account exactly while that is active and its time has not come |
| SignInRuns.LogoutEndsTheSession | internal/identity/service.go:601-637 | signing out with any token a session was ever handed revokes that session |
| SessionRuns.AnnouncedExactlyWhenRevoked | internal/identity/service.go:592-594 | a call announces a session exactly when it committed its revocation |
| SessionRuns.AnnouncedOnce | internal/identity/service.go:633-635 | each session is announced at most once |
| SessionRuns.AnnouncedSessionIsDenied | internal/identity/service.go:676-685 | an announced session authorizes nothing any more |
| SessionRuns.InactiveAccountIsDenied | internal/identity/service.go:541-549 | after an announcement that names the account inactive the account authorizes nothing, until an operator takes it back |
| VerificationRuns.StepRow | internal/identity/service.go:289-330 | everything one call can do to a verification row |
| VerificationRuns.EightGuessesPerCode | internal/identity/service.go:300-316 | against one mailed code at most eight wrong guesses commit, however often sign-ins rotate the ticket |
| VerificationRuns.CodesAreApart | internal/identity/service.go:435-438 | codes mailed to an account with a row are at least thirty seconds apart |
| VerificationRuns.GuessingIsBounded | internal/identity/service.go:355-362 | wrong guesses against a pending account in a span T are at most 8 * (T / 30 s + 2) |
| VerificationRuns.AcceptedInTime | internal/identity/service.go:335-406 | a code is accepted only for a pending account, within ten and a half minutes of the mailing it came from, and is gone afterwards |
| VerificationRuns.DecoyLooksReal | internal/identity/service.go:176-214 | in every run a registration is answered alike for a free and a taken address, every guess with its ticket signs in or is answered as a wrong code, and a decoy ticket never signs in |
| SignInRuns.LoginAnswersIff | internal/identity/service.go:216-330 | in every run a password signs in exactly as the one stored for an account read as active and challenges exactly as that of one read as pending; every other is refused alike and changes nothing; what either writes |
| SignInRuns.VerifyAnswersIff | internal/identity/service.go:335-406 | a code signs in exactly the pending account whose current ticket comes with it in time and before the eighth wrong guess; a wrong one costs exactly one guess |
| SignInRuns.RegisterAnswers | internal/identity/service.go:106-214 | a free address gets a pending account with this password and code, a taken one changes no account and no code |
| SignInRuns.ResendAnswersIff | internal/identity/service.go:411-474 | exactly when a new code and ticket go out, exactly when the caller is told to wait, and the row that is left |
| GoogleRuns.LinkedMeansVerified | internal/identity/google.go:205-240 | a linked account has a verified address and is not pending |
| GoogleRuns.LinksAreOneToOne | internal/identity/google.go:242-266 | subjects and accounts are linked one to one and links never move |
| GoogleRuns.NoSessionWhilePending | internal/identity/service.go:253-263 | no session belongs to a pending account |
| GoogleRuns.NeverPendingAgain | internal/identity/postgres/store.go:351-397 | no account becomes pending again |
| GoogleRuns.GoogleActivationDropsThePassword | internal/identity/google.go:207-228 | an account whose registration Google completed has no password ever after, and no password signs in to it, not even against a stale read |
| GoogleRuns.RefusalsCommitOnlyAudit | internal/identity/google.go:271-286 | a refused sign-in changes nothing but the audit event that names the account |
| GoogleRuns.ConflictsAreRaces | internal/identity/google.go:58-66 | an attempt loses to a unique index only if a lookup missed a row |
| GoogleRuns.CurrentReadsNeverConflict | internal/identity/google.go:9-12 | with current reads there is no conflict |
| GoogleRuns.RetryConflictsIff | internal/identity/google.go:58-74 | in every run, a second attempt that sees what the first lost to conflicts again exactly when a link of the subject or the account was committed in between and missed |
| GoogleRuns.RetryFindsItsLink | internal/identity/google.go:9-12 | such a second attempt signs in exactly when the subject's account is active, if the subject was linked when the first lost |
| GoogleRuns.RetryCanConflict | internal/identity/google.go:9-12 | a run of four events in which the retry conflicts although it sees what the first attempt lost to |
| GoogleRuns.LinkedSignsInIff | internal/identity/google.go:127-149 | a subject linked to an active account signs in exactly when the attempt sees the link |
| SignInRuns.GoogleAnswersIff | internal/identity/google.go:86-266 | in every run exactly when an attempt lets a subject in, into which account, and that no other subject's link is touched |
| GoogleRuns.LoserCanBeRefused | internal/identity/google.go:242-255 | a loser that misses the link but finds the account is refused, and not retried |
| GoogleRuns.LoserIsReachable | internal/identity/google.go:58-74 | two first sign-ins of one subject reach that refusal |
| RateLimiting.RateLimiter.Allow | internal/platform/httpserver/rate_limit.go:56-79 | map and list stay in bijection and never hold more than the capacity, whatever the clock does, and entries and verdict are the specified ones |
| RateLimiting.RateLimiter.RemoveExpired | internal/platform/httpserver/rate_limit.go:81-88 | exactly the leading expired entries go |
| RateLimitRuns.AllowKeepsOrder | internal/platform/httpserver/rate_limit.go:17-32 | entries stay sorted by window start under non-decreasing request times |
| RateLimitRuns.RefinesPerKey | internal/platform/httpserver/rate_limit.go:56-79 | a client that is not evicted gets the verdicts of a limiter that watches it alone |
| RateLimitRuns.FreshLimiterRefinesPerKey | internal/platform/httpserver/rate_limit.go:40-52 | from the empty limiter a never-evicted client gets in any run the verdicts of a limiter of its own |
| RateLimitRuns.OldestGivesWay | internal/platform/httpserver/rate_limit.go:72-79 | another client's open window is forgotten exactly when the limiter is full of open windows, this one started first and the request opens a new one |
| RateLimitRuns.FewNewerAnswered | internal/platform/httpserver/rate_limit.go:72-79 | a client after whom too few windows open to fill the limiter is answered as if alone |
| RateLimitRuns.FewClientsAnswered | internal/platform/httpserver/rate_limit.go:34-52 | as long as no stretch of one window length hears from more clients than the capacity everyone is answered as if alone |
| RateLimitRuns.EvictionIsVisible | internal/platform/httpserver/rate_limit.go:74-78 | no later run of everybody, with the client not evicted, tells the limiter from the specification exactly when the request did not evict the client |
| RateLimitRuns.EvictedCanBeRefusedIff | internal/platform/httpserver/rate_limit.go:74-78 | an evicted client can later be refused what the specification admits exactly when windows are longer than one tick |
| RateLimitRuns.AdmissionBoundIs | internal/platform/httpserver/rate_limit.go:56-79 | the least bound on what one client gets through in a stretch of one window length is twice the maximum less one, a maximum below one counting as one |
| RateLimitRuns.NotTwiceTheMaximum | internal/platform/httpserver/rate_limit.go:56-79 | any such stretch of any run admits fewer than twice the maximum |
| RateLimitRuns.RetryAfterIsExact | internal/platform/httpserver/rate_limit.go:68-70 | after a refusal, in every later run of everybody that does not evict the client, its requests before the announced moment are refused, each with the rest of the same wait, and its first from that moment on is admitted |
| VerificationCodes.IssueVerificationCode | internal/identity/token.go:36-52 | the bounded rejection loop reads and answers as specified |
| VerificationCodes.HitsAreEqual | internal/identity/token.go:36-52 | below a multiple of any code space every remainder is hit equally often |
| VerificationCodes.CodesAreUniform | internal/identity/token.go:36-52 | every six-digit code has exactly 4294 accepted draws and nothing else has any |
| VerificationCodes.DrawSucceedsIff | internal/identity/token.go:39-52 | issuing succeeds exactly when an early enough draw is below the limit |
| UserCodes.IssueUserCode | internal/connectors/service.go:1367-1380 | the shifting loop prints the eight letters of the forty bits |
| UserCodes.LettersDetermineBytes | internal/connectors/service.go:1367-1380 | the five bytes can be read back from the letters |
| UserCodes.BytesDetermineLetters | internal/connectors/service.go:1367-1380 | every eight letters of the alphabet are printed by some draw |
| UserCodes.PrintedNormalizes | internal/connectors/service.go:1382-1384 | a printed code typed back normalizes to its eight letters |
| UserCodes.NormalizeIsIdempotentIff | internal/connectors/service.go:1382-1384 | normalizing twice is normalizing once exactly when neither the first nor the last character of the trimmed text other than a dash is white space |
| UserCodes.NormalizeTwiceDiffers | internal/connectors/service.go:1382-1384 | a text on which it is not |
| Base64.DecodesIff | internal/identity/password.go:85-93 | a text decodes to given bytes exactly when, line breaks aside, it is their encoding |
| PasswordHash.ParsePrintedIff | internal/identity/password.go:139-172 | parsing a printed hash succeeds exactly for acceptable parameters and lengths, and then returns them |
| PasswordHash.ParsedIsCanonical | internal/identity/password.go:139-172 | whatever parses has acceptable parameters and lengths, and its salt and key fields are, line breaks aside, the encodings of the values returned |
| PasswordHash.RoundTripsIff | internal/identity/password.go:139-172 | an accepted text is the printed form of what it parses to exactly when its version and its three figures are digits without leading zero, sign, blank or anything behind them, and salt and key have no line break |
| PasswordHash.TrailingTextIsAccepted | internal/identity/password.go:139-172 | text behind the last figure gives, for every hash, an accepted text nobody printed |
| PasswordHash.VerifyAcceptsExactly | internal/identity/password.go:96-118 | a stored hash accepts exactly the passwords with the same derived key |
| PasswordHash.PasswordHasher.Hash | internal/identity/password.go:68-93 | returns exactly when a slot is free, the context is done or both, keeping the slots in use within the pool and giving its own back on every path; what it stores is accepted for exactly the passwords with the same derived key |
| PasswordHash.PasswordHasher.Verify | internal/identity/password.go:96-118 | a malformed hash is answered without a slot; otherwise waiting, giving up and answering are as for hashing, and a printed hash accepts exactly the passwords from which its salt derives its key |

## Left out

- HTTP handlers, cookies, origin checks, JSON and the WebSocket protocol: transport.
- Mail delivery and the bounce flag, the Google token verifier, the disposable-address list: foreign services; the
  verdicts they give are inputs.
- ECDSA, SHA-256, HMAC and Argon2 themselves: a predicate and injective functions; the key function of the password
  hasher is a parameter.
- Names, renaming, listing, OwnConnector and the connector audit events: they would add only easy members. The identity audit log is
  modelled, because what refusals commit is one of its promises.
- Foreign keys to accounts that do not exist, and account deletion with its cascades.
- The order in which a trust snapshot lists its identities: it is a set.
- Deadlocks between row locks inside the database, and pool timeouts.
- Overflow of durations and counters.
- The development relay hub, an easier variant of the production hub.
- Rows of the connector tables written before this version of the server, except where the migration meets them.
- UserCodes.NormalizeIsIdempotentIff: upper-casing is modelled for the letters whose upper case is ASCII (the ASCII letters, dotless i and long s); every other letter's upper case lies outside the alphabet, so a code with one matches no pairing either way.
- VerificationRuns.DecoyLooksReal: covers the registration's answer and guesses against its ticket; a resend is answered from the ticket's row and is not covered.
- RelayPeers.SecureHub.RegisterLocked: the stops and enqueues after the mutex is released are steps of RelayRace, not part of this method, because other goroutines run in between.
- GoogleRuns.LoserCanBeRefused: the shape of the race is given by which lookups missed a row, not by the isolation level of the database.
