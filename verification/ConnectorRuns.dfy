/** The connector service as a machine that answers one call after another, each with its own
    clock reading and its own answers from the identity module.

    A transaction locks the rows it reads and the unique indexes it writes, so its effect is that
    of one step on the whole store. What happens outside transactions stays outside: an event says
    what the identity module answered and whether signatures and names were found in order, and
    announcements are part of the answer, made after the commit. Runs start from empty tables and
    assume nothing about the clock, which may run backwards from one call to the next. */
module ConnectorRuns {
  import opened ConnectorTypes
  import opened ConnectorStore
  import opened ConnectorWrites
  import opened PairingSpec
  import opened PairingProofs
  import opened CredentialSpec
  import opened CredentialProofs
  import UserCodes

  datatype Call =
    | IssueChallengeCall(purpose: string, owner: Option<UserId>)
    | BeginPairingCall(identity: PublicIdentity, proven: bool, challenge: Secret, code: string)
    | ClaimPairingCall(userID: UserId, userCode: string, identity: PublicIdentity, proven: bool, challenge: Secret)
    | ConfirmPairingCall(userID: UserId, pairingID: nat, deviceID: nat)
    | PollPairingCall(secret: Secret)
    | ApprovePairingCall(pairingID: nat, secret: Secret, deviceKeyID: string)
    | CancelPairingCall(pairingID: nat, secret: Secret)
    | RotateDeviceCall(userID: UserId, sessionID: SessionId, deviceID: nat, credential: Secret)
    | ActivateDeviceCall(userID: UserId, sessionID: SessionId, deviceID: nat, credential: Secret)
    | RotateConnectorCall(credential: Secret)
    | ActivateConnectorCall(credential: Secret)
    | RevokeConnectorCall(credential: Secret)
    | RevokeAccountConnectorCall(userID: UserId, connectorID: nat)
    | RevokeAccountDeviceCall(userID: UserId, deviceID: nat)
    | IssueBrowserTicketCall(userID: UserId, sessionID: SessionId, deviceID: nat, credential: Secret, accessExpiresAt: Option<Time>)
    | IssueConnectorTicketCall(credential: Secret)
    | ConsumeRelayTicketCall(ticket: Secret)
    | ValidateAdmissionCall(admission: Admission)

  datatype Event = Event(call: Call, now: Time, account: Auth, session: Auth)

  predicate PairingCall(call: Call) {
    call.BeginPairingCall? || call.ClaimPairingCall? || call.ConfirmPairingCall? || call.PollPairingCall?
    || call.ApprovePairingCall? || call.CancelPairingCall?
  }

  predicate DeviceCall(call: Call) {
    call.RotateDeviceCall? || call.ActivateDeviceCall? || call.RevokeAccountDeviceCall? || call.IssueBrowserTicketCall?
  }

  predicate ConnectorCall(call: Call) {
    call.RotateConnectorCall? || call.ActivateConnectorCall? || call.RevokeConnectorCall? || call.RevokeAccountConnectorCall?
    || call.IssueConnectorTicketCall?
  }

  ghost function PairingStep(c: Config, s: Store, e: Event): Outcome
    requires PairingCall(e.call)
  {
    match e.call
    case BeginPairingCall(identity, proven, challenge, code) => BeginPairing(c, s, identity, proven, challenge, code, e.now)
    case ClaimPairingCall(userID, userCode, identity, proven, challenge) =>
      ClaimPairing(s, userID, userCode, identity, proven, challenge, e.now, e.account)
    case ConfirmPairingCall(userID, id, d) => ConfirmPairing(c, s, userID, id, d, e.now, e.account)
    case PollPairingCall(secret) => PollPairing(c, s, secret, e.now)
    case ApprovePairingCall(id, secret, keyID) => ApprovePairing(s, id, secret, keyID, e.now)
    case CancelPairingCall(id, secret) => CancelPairing(s, id, secret)
  }

  ghost function DeviceStep(c: Config, s: Store, e: Event): Outcome
    requires DeviceCall(e.call)
  {
    match e.call
    case RotateDeviceCall(userID, sessionID, d, credential) =>
      RotateDevice(c, s, userID, sessionID, d, credential, e.now, e.account, e.session)
    case ActivateDeviceCall(userID, sessionID, d, credential) =>
      ActivateDevice(c, s, userID, sessionID, d, credential, e.now, e.account, e.session)
    case RevokeAccountDeviceCall(userID, d) => RevokeAccountDevice(s, userID, d, e.now, e.account)
    case IssueBrowserTicketCall(userID, sessionID, d, credential, accessExpiresAt) =>
      IssueBrowserTicket(c, s, userID, sessionID, d, credential, accessExpiresAt, e.now, e.account, e.session)
  }

  ghost function ConnectorStep(c: Config, s: Store, e: Event): Outcome
    requires ConnectorCall(e.call)
  {
    match e.call
    case RotateConnectorCall(credential) => RotateConnector(c, s, credential, e.now, e.account)
    case ActivateConnectorCall(credential) => ActivateConnector(c, s, credential, e.now, e.account)
    case RevokeConnectorCall(credential) => RevokeConnector(s, credential, e.now)
    case RevokeAccountConnectorCall(userID, k) => RevokeAccountConnector(s, userID, k, e.now, e.account)
    case IssueConnectorTicketCall(credential) => IssueConnectorTicket(c, s, credential, e.now, e.account)
  }

  /** One call, run to its commit or rollback. */
  ghost function Step(c: Config, s: Store, e: Event): Outcome {
    if PairingCall(e.call) then PairingStep(c, s, e)
    else if DeviceCall(e.call) then DeviceStep(c, s, e)
    else if ConnectorCall(e.call) then ConnectorStep(c, s, e)
    else TokenStep(c, s, e)
  }

  ghost function TokenStep(c: Config, s: Store, e: Event): Outcome
    requires !PairingCall(e.call) && !DeviceCall(e.call) && !ConnectorCall(e.call)
  {
    match e.call
    case IssueChallengeCall(purpose, owner) => IssueChallenge(c, s, purpose, owner, e.now)
    case ConsumeRelayTicketCall(ticket) => ConsumeRelayTicket(s, ticket, e.now, e.account, e.session)
    case ValidateAdmissionCall(a) => (s, ValidateAdmission(s, a, e.now, e.account, e.session))
  }

  // ---------------------------------------------------------------- each call's step

  lemma IssueCall(c: Config, s: Store, e: Event)
    requires e.call.IssueChallengeCall?
    ensures Step(c, s, e) == IssueChallenge(c, s, e.call.purpose, e.call.owner, e.now)
  {
    hide IssueChallenge;
  }

  lemma BeginCall(c: Config, s: Store, e: Event)
    requires e.call.BeginPairingCall?
    ensures Step(c, s, e) == BeginPairing(c, s, e.call.identity, e.call.proven, e.call.challenge, e.call.code, e.now)
  {
    hide BeginPairing;
  }

  lemma ClaimCall(c: Config, s: Store, e: Event)
    requires e.call.ClaimPairingCall?
    ensures Step(c, s, e)
      == ClaimPairing(s, e.call.userID, e.call.userCode, e.call.identity, e.call.proven, e.call.challenge, e.now, e.account)
  {
    hide ClaimPairing;
  }

  lemma ConfirmCall(c: Config, s: Store, e: Event)
    requires e.call.ConfirmPairingCall?
    ensures Step(c, s, e) == ConfirmPairing(c, s, e.call.userID, e.call.pairingID, e.call.deviceID, e.now, e.account)
  {
    hide ConfirmPairing;
  }

  lemma PollCall(c: Config, s: Store, e: Event)
    requires e.call.PollPairingCall?
    ensures Step(c, s, e) == PollPairing(c, s, e.call.secret, e.now)
  {
    hide PollPairing;
  }

  lemma ApproveCall(c: Config, s: Store, e: Event)
    requires e.call.ApprovePairingCall?
    ensures Step(c, s, e) == ApprovePairing(s, e.call.pairingID, e.call.secret, e.call.deviceKeyID, e.now)
  {
    hide ApprovePairing;
  }

  lemma CancelCall(c: Config, s: Store, e: Event)
    requires e.call.CancelPairingCall?
    ensures Step(c, s, e) == CancelPairing(s, e.call.pairingID, e.call.secret)
  {
    hide CancelPairing;
  }

  lemma DeviceCalls(c: Config, s: Store, e: Event)
    requires DeviceCall(e.call)
    ensures Step(c, s, e) == DeviceStep(c, s, e)
  {
    hide DeviceStep;
  }

  lemma ConnectorCalls(c: Config, s: Store, e: Event)
    requires ConnectorCall(e.call)
    ensures Step(c, s, e) == ConnectorStep(c, s, e)
  {
    hide ConnectorStep;
  }

  lemma ConsumeCall(c: Config, s: Store, e: Event)
    requires e.call.ConsumeRelayTicketCall?
    ensures Step(c, s, e) == ConsumeRelayTicket(s, e.call.ticket, e.now, e.account, e.session)
  {
    hide ConsumeRelayTicket;
  }

  lemma PairingStepKeeps(c: Config, s: Store, e: Event)
    requires Inv(c, s) && PairingCall(e.call)
    ensures Inv(c, PairingStep(c, s, e).0) && Later(s, PairingStep(c, s, e).0)
  {
    hide Inv, Later, BeginPairing, ClaimPairing, ConfirmPairing, PollPairing, ApprovePairing, CancelPairing;
    match e.call
    case BeginPairingCall(identity, proven, challenge, code) => BeginKeeps(c, s, identity, proven, challenge, code, e.now);
    case ClaimPairingCall(userID, userCode, identity, proven, challenge) =>
      ClaimKeeps(c, s, userID, userCode, identity, proven, challenge, e.now, e.account);
    case ConfirmPairingCall(userID, id, d) => ConfirmKeeps(c, s, userID, id, d, e.now, e.account);
    case PollPairingCall(secret) => PollKeeps(c, s, secret, e.now);
    case ApprovePairingCall(id, secret, keyID) => ApproveKeeps(c, s, id, secret, keyID, e.now);
    case CancelPairingCall(id, secret) => CancelKeeps(c, s, id, secret);
  }

  lemma DeviceStepKeeps(c: Config, s: Store, e: Event)
    requires Inv(c, s) && DeviceCall(e.call)
    ensures Inv(c, DeviceStep(c, s, e).0) && Later(s, DeviceStep(c, s, e).0)
  {
    hide Inv, Later, RotateDevice, ActivateDevice, RevokeAccountDevice, IssueBrowserTicket;
    match e.call
    case RotateDeviceCall(userID, sessionID, d, credential) =>
      RotateDeviceKeeps(c, s, userID, sessionID, d, credential, e.now, e.account, e.session);
    case ActivateDeviceCall(userID, sessionID, d, credential) =>
      ActivateDeviceKeeps(c, s, userID, sessionID, d, credential, e.now, e.account, e.session);
    case RevokeAccountDeviceCall(userID, d) => RevokeDeviceKeeps(c, s, userID, d, e.now, e.account);
    case IssueBrowserTicketCall(userID, sessionID, d, credential, accessExpiresAt) =>
      BrowserTicketKeeps(c, s, userID, sessionID, d, credential, accessExpiresAt, e.now, e.account, e.session);
  }

  lemma ConnectorStepKeeps(c: Config, s: Store, e: Event)
    requires Inv(c, s) && ConnectorCall(e.call)
    ensures Inv(c, ConnectorStep(c, s, e).0) && Later(s, ConnectorStep(c, s, e).0)
  {
    hide Inv, Later, RotateConnector, ActivateConnector, RevokeConnector, RevokeAccountConnector, IssueConnectorTicket;
    match e.call
    case RotateConnectorCall(credential) => RotateConnectorKeeps(c, s, credential, e.now, e.account);
    case ActivateConnectorCall(credential) => ActivateConnectorKeeps(c, s, credential, e.now, e.account);
    case RevokeConnectorCall(credential) => RevokeConnectorKeeps(c, s, credential, e.now);
    case RevokeAccountConnectorCall(userID, k) => RevokeAccountConnectorKeeps(c, s, userID, k, e.now, e.account);
    case IssueConnectorTicketCall(credential) => ConnectorTicketKeeps(c, s, credential, e.now, e.account);
  }

  lemma TokenStepKeeps(c: Config, s: Store, e: Event)
    requires Inv(c, s) && !PairingCall(e.call) && !DeviceCall(e.call) && !ConnectorCall(e.call)
    ensures Inv(c, TokenStep(c, s, e).0) && Later(s, TokenStep(c, s, e).0)
  {
    LaterRefl(s);
    hide Inv, Later, IssueChallenge, ConsumeRelayTicket, ValidateAdmission;
    match e.call
    case IssueChallengeCall(purpose, owner) => IssueKeeps(c, s, purpose, owner, e.now);
    case ConsumeRelayTicketCall(ticket) => ConsumeKeeps(c, s, ticket, e.now, e.account, e.session);
    case ValidateAdmissionCall(a) =>
  }

  /** Every call keeps the invariant of the tables and only moves rows forward. */
  lemma StepKeeps(c: Config, s: Store, e: Event)
    requires Inv(c, s)
    ensures Inv(c, Step(c, s, e).0) && Later(s, Step(c, s, e).0)
  {
    hide Inv, Later, PairingStep, DeviceStep, ConnectorStep, TokenStep;
    if PairingCall(e.call) {
      PairingStepKeeps(c, s, e);
    } else if DeviceCall(e.call) {
      DeviceStepKeeps(c, s, e);
    } else if ConnectorCall(e.call) {
      ConnectorStepKeeps(c, s, e);
    } else {
      TokenStepKeeps(c, s, e);
    }
  }

  // ---------------------------------------------------------------- runs from an empty store

  ghost function StateAt(c: Config, events: seq<Event>, i: nat): Store
    requires i <= |events|
  {
    if i == 0 then EMPTY_STORE else Step(c, StateAt(c, events, i - 1), events[i - 1]).0
  }

  ghost function ReplyAt(c: Config, events: seq<Event>, i: nat): Reply
    requires i < |events|
  {
    Step(c, StateAt(c, events, i), events[i]).1
  }

  lemma {:induction false} StateIsOk(c: Config, events: seq<Event>, i: nat)
    requires i <= |events|
    ensures Inv(c, StateAt(c, events, i))
  {
    EmptyIsOk(c);
    hide Inv, Step;
    if i > 0 {
      StateIsOk(c, events, i - 1);
      StepKeeps(c, StateAt(c, events, i - 1), events[i - 1]);
    }
  }

  lemma {:induction false} StatesMoveForward(c: Config, events: seq<Event>, i: nat, j: nat)
    requires i <= j <= |events|
    ensures Later(StateAt(c, events, i), StateAt(c, events, j))
    decreases j
  {
    hide Later, Step, Inv;
    LaterRefl(StateAt(c, events, i));
    if i < j {
      StatesMoveForward(c, events, i, j - 1);
      StateIsOk(c, events, j - 1);
      StepKeeps(c, StateAt(c, events, j - 1), events[j - 1]);
      LaterTrans(StateAt(c, events, i), StateAt(c, events, j - 1), StateAt(c, events, j));
    }
  }

  // ---------------------------------------------------------------- what one call can do to a pairing

  /** Running out: at any time while active, or past the expiry time. */
  predicate RunsOut(p: Pairing, q: Pairing, now: Time) {
    q == p.(state := Expired) && (Active(p) || p.state.Expired? || p.expiresAt <= now)
  }

  predicate ClaimsPairing(t: Store, e: Event, reply: Reply, id: nat, p: Pairing, q: Pairing) {
    && e.call.ClaimPairingCall? && p.state.Pending? && e.now < p.expiresAt && e.account.Granted?
    && q == p.(state := Verification, userID := Some(e.call.userID), deviceID := q.deviceID)
    && q.deviceID.Some? && q.deviceID.value in t.devices
    && t.devices[q.deviceID.value].identity.keyID == e.call.identity.keyID
    && reply == Claimed(TranscriptOf(id, p, t.devices[q.deviceID.value]), q.deviceID.value, p.expiresAt)
  }

  predicate ApprovesPairing(s: Store, e: Event, reply: Reply, id: nat, p: Pairing, q: Pairing) {
    && e.call.ApprovePairingCall? && e.call.pairingID == id && Sha256(e.call.secret) == p.secretHash
    && p.state.Verification? && e.now < p.expiresAt
    && p.deviceID.Some? && p.deviceID.value in s.devices && s.devices[p.deviceID.value].identity.keyID == e.call.deviceKeyID
    && q == p.(connectorReviewedAt := Some(e.now)) && p.connectorReviewedAt.None? && reply.Approved?
  }

  predicate ConfirmsPairing(c: Config, s: Store, t: Store, e: Event, reply: Reply, id: nat, p: Pairing, q: Pairing) {
    && e.call.ConfirmPairingCall? && e.call.pairingID == id && e.account.Granted?
    && p.userID == Some(e.call.userID) && p.deviceID == Some(e.call.deviceID)
    && p.state.Verification? && p.connectorReviewedAt.Some? && e.now < p.expiresAt
    && q == p.(deviceCredentialSeed := q.deviceCredentialSeed, state := Completed, connectorID := q.connectorID,
               confirmedAt := Some(e.now), completedAt := Some(e.now))
    && q.deviceCredentialSeed.Some? && q.connectorID.Some?
    && reply == PairingConfirmed(e.call.deviceID, q.connectorID.value, DeviceCredential(q.deviceCredentialSeed.value),
                                 e.now + c.deviceLifetime)
  }

  ghost predicate PairingEdge(c: Config, s: Store, t: Store, e: Event, reply: Reply, id: nat)
    requires id in s.pairings && id in t.pairings
  {
    var p, q := s.pairings[id], t.pairings[id];
    || q == p
    || RunsOut(p, q, e.now)
    || ClaimsPairing(t, e, reply, id, p, q)
    || ApprovesPairing(s, e, reply, id, p, q)
    || ConfirmsPairing(c, s, t, e, reply, id, p, q)
  }

  lemma DeviceStepKeepsRows(c: Config, s: Store, e: Event)
    requires DeviceCall(e.call)
    ensures DeviceStep(c, s, e).0.pairings == s.pairings && DeviceStep(c, s, e).0.connectors == s.connectors
  {
    hide RotateDevice, ActivateDevice, RevokeAccountDevice, IssueBrowserTicket;
  }

  lemma DeviceCallsKeep(c: Config, s: Store, e: Event)
    requires DeviceCall(e.call)
    ensures Step(c, s, e).0.pairings == s.pairings && Step(c, s, e).0.connectors == s.connectors
  {
    hide PairingStep, DeviceStep, ConnectorStep, TokenStep;
    DeviceStepKeepsRows(c, s, e);
  }

  lemma ConnectorStepKeepsRows(c: Config, s: Store, e: Event)
    requires ConnectorCall(e.call)
    ensures ConnectorStep(c, s, e).0.pairings == s.pairings && ConnectorStep(c, s, e).0.devices == s.devices
  {
    hide RotateConnector, ActivateConnector, RevokeConnector, RevokeAccountConnector, IssueConnectorTicket;
  }

  lemma ConnectorCallsKeep(c: Config, s: Store, e: Event)
    requires ConnectorCall(e.call)
    ensures Step(c, s, e).0.pairings == s.pairings && Step(c, s, e).0.devices == s.devices
  {
    hide PairingStep, DeviceStep, ConnectorStep, TokenStep;
    ConnectorStepKeepsRows(c, s, e);
  }

  lemma TokenCallsKeep(c: Config, s: Store, e: Event)
    requires !PairingCall(e.call) && !DeviceCall(e.call) && !ConnectorCall(e.call)
    ensures var t := Step(c, s, e).0; t.pairings == s.pairings && t.devices == s.devices && t.connectors == s.connectors
  {
    hide PairingStep, DeviceStep, ConnectorStep, TokenStep;
    TokenStepKeepsRows(c, s, e);
  }

  lemma TokenStepKeepsRows(c: Config, s: Store, e: Event)
    requires !PairingCall(e.call) && !DeviceCall(e.call) && !ConnectorCall(e.call)
    ensures var t := TokenStep(c, s, e).0; t.pairings == s.pairings && t.devices == s.devices && t.connectors == s.connectors
  {
    hide IssueChallenge, ConsumeRelayTicket, ValidateAdmission;
    match e.call
    case IssueChallengeCall(_, _) =>
    case ConsumeRelayTicketCall(_) =>
    case ValidateAdmissionCall(_) =>
  }

  lemma OtherCallsKeepPairings(c: Config, s: Store, e: Event)
    requires !PairingCall(e.call)
    ensures Step(c, s, e).0.pairings == s.pairings
  {
    hide Step;
    if DeviceCall(e.call) {
      DeviceCallsKeep(c, s, e);
    } else if ConnectorCall(e.call) {
      ConnectorCallsKeep(c, s, e);
    } else {
      TokenCallsKeep(c, s, e);
    }
  }

  lemma BeginEdge(c: Config, s: Store, e: Event, id: nat)
    requires Inv(c, s) && e.call.BeginPairingCall? && id in s.pairings
    ensures var (t, reply) := BeginPairing(c, s, e.call.identity, e.call.proven, e.call.challenge, e.call.code, e.now);
      id in t.pairings && PairingEdge(c, s, t, e, reply, id)
  {
    NewID(c, s);
    hide Inv, Collides, ValidKeyID, ClaimsPairing, ApprovesPairing, ConfirmsPairing;
  }

  lemma CodeEdge(c: Config, s: Store, used: Store, e: Event, code: string, id: nat)
    requires e.call.ClaimPairingCall? && e.account.Granted? && id in s.pairings && used.pairings == s.pairings
    ensures var (t, reply) := ClaimWithCode(s, used, e.call.userID, e.call.identity, code, e.now);
      id in t.pairings && PairingEdge(c, s, t, e, reply, id)
  {
    hide ApprovesPairing, ConfirmsPairing, PairingByCode, ClaimsPairing, ClaimWithCode;
    OtherCodes(s, used, e.call.userID, e.call.identity, code, e.now, id);
    if PairingByCode(used, code) == Some(id) && used.pairings[id].state.Pending? && e.now < used.pairings[id].expiresAt {
      BindEdge(c, s, used, e, code, id);
    }
  }

  /** A claim touches only the pairing its code names, and without binding it at most expires it. */
  lemma OtherCodes(s: Store, used: Store, userID: UserId, identity: PublicIdentity, code: string, now: Time, id: nat)
    requires id in s.pairings && used.pairings == s.pairings
    ensures var t := ClaimWithCode(s, used, userID, identity, code, now).0;
      && id in t.pairings
      && (PairingByCode(used, code) != Some(id) ==> t.pairings[id] == s.pairings[id])
      && (PairingByCode(used, code) == Some(id) && !(s.pairings[id].state.Pending? && now < s.pairings[id].expiresAt) ==>
           t.pairings[id] == s.pairings[id] || RunsOut(s.pairings[id], t.pairings[id], now))
  {
    hide PairingByCode, DeviceFor;
  }

  lemma BindEdge(c: Config, s: Store, used: Store, e: Event, code: string, id: nat)
    requires e.call.ClaimPairingCall? && e.account.Granted? && id in s.pairings && used.pairings == s.pairings
    requires PairingByCode(used, code) == Some(id) && s.pairings[id].state.Pending? && e.now < s.pairings[id].expiresAt
    ensures var (t, reply) := ClaimWithCode(s, used, e.call.userID, e.call.identity, code, e.now);
      id in t.pairings && (t.pairings[id] == s.pairings[id] || ClaimsPairing(t, e, reply, id, s.pairings[id], t.pairings[id]))
  {
    hide PairingByCode, RecordClaimFailure;
  }

  lemma ClaimEdge(c: Config, s: Store, e: Event, id: nat)
    requires e.call.ClaimPairingCall? && id in s.pairings
    ensures var (t, reply) := ClaimPairing(s, e.call.userID, e.call.userCode, e.call.identity, e.call.proven,
                                           e.call.challenge, e.now, e.account);
      id in t.pairings && PairingEdge(c, s, t, e, reply, id)
  {
    hide ClaimWithCode, ValidKeyID, ClaimsPairing, ApprovesPairing, ConfirmsPairing;
    if e.account.Granted? && Sha256(e.call.challenge) in s.challenges {
      var code := UserCodes.Normalize(UserCodes.Normalize(e.call.userCode));
      CodeEdge(c, s, UseChallenge(s, e.call.challenge, e.now), e, code, id);
    }
  }

  lemma ConfirmEdge(c: Config, s: Store, e: Event, id: nat)
    requires e.call.ConfirmPairingCall? && id in s.pairings
    ensures var (t, reply) := ConfirmPairing(c, s, e.call.userID, e.call.pairingID, e.call.deviceID, e.now, e.account);
      id in t.pairings && PairingEdge(c, s, t, e, reply, id)
  {
    hide ClaimsPairing, ApprovesPairing, ConfirmAgain;
  }

  lemma PollEdge(c: Config, s: Store, e: Event, id: nat)
    requires Inv(c, s) && e.call.PollPairingCall? && id in s.pairings
    ensures var (t, reply) := PollPairing(c, s, e.call.secret, e.now); id in t.pairings && PairingEdge(c, s, t, e, reply, id)
  {
    hide Inv, PollPairing, PairingBySecret, ClaimsPairing, ApprovesPairing, ConfirmsPairing;
    PollOnlyExpires(c, s, e.call.secret, e.now);
  }

  lemma ApproveEdge(c: Config, s: Store, e: Event, id: nat)
    requires e.call.ApprovePairingCall? && id in s.pairings
    ensures var (t, reply) := ApprovePairing(s, e.call.pairingID, e.call.secret, e.call.deviceKeyID, e.now);
      id in t.pairings && PairingEdge(c, s, t, e, reply, id)
  {
    hide ClaimsPairing, ConfirmsPairing;
  }

  lemma CancelEdge(c: Config, s: Store, e: Event, id: nat)
    requires e.call.CancelPairingCall? && id in s.pairings
    ensures var (t, reply) := CancelPairing(s, e.call.pairingID, e.call.secret); id in t.pairings && PairingEdge(c, s, t, e, reply, id)
  {
    hide ClaimsPairing, ApprovesPairing, ConfirmsPairing;
  }

  lemma StepEdge(c: Config, s: Store, e: Event, id: nat)
    requires Inv(c, s) && id in s.pairings
    ensures var (t, reply) := Step(c, s, e); id in t.pairings && PairingEdge(c, s, t, e, reply, id)
  {
    hide Inv, PairingEdge, DeviceStep, ConnectorStep, TokenStep,
      BeginPairing, ClaimPairing, ConfirmPairing, PollPairing, ApprovePairing, CancelPairing;
    if e.call.BeginPairingCall? {
      BeginEdge(c, s, e, id);
    } else if e.call.ClaimPairingCall? {
      ClaimEdge(c, s, e, id);
    } else if e.call.ConfirmPairingCall? {
      ConfirmEdge(c, s, e, id);
    } else if e.call.PollPairingCall? {
      PollEdge(c, s, e, id);
    } else if e.call.ApprovePairingCall? {
      ApproveEdge(c, s, e, id);
    } else if e.call.CancelPairingCall? {
      CancelEdge(c, s, e, id);
    } else {
      OtherCallsKeepPairings(c, s, e);
      SameEdge(c, s, Step(c, s, e).0, e, Step(c, s, e).1, id);
    }
  }

  lemma SameEdge(c: Config, s: Store, t: Store, e: Event, reply: Reply, id: nat)
    requires id in s.pairings && t.pairings == s.pairings
    ensures PairingEdge(c, s, t, e, reply, id)
  {
  }
}
