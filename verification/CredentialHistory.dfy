/** What every run of the connector service says about credentials, rotation and revocation. */
module CredentialHistory {
  import opened ConnectorTypes
  import opened ConnectorStore
  import opened ConnectorWrites
  import opened PairingSpec
  import opened PairingProofs
  import opened CredentialSpec
  import opened ConnectorRuns
  import UserCodes

  // ---------------------------------------------------------------- what one call can do to a row

  /** The call was answered for this row: it presented the row's credential, or named the row. */
  predicate RotatesRow(e: Event, reply: Reply, role: Role, i: nat, a: Subject) {
    && reply.Rotated?
    && match e.call
       case RotateDeviceCall(_, _, d, credential) => role.Client? && d == i && a.slots.live == Some(Sha256(credential))
       case RotateConnectorCall(credential) => role.Connector? && a.slots.live == Some(Sha256(credential))
       case _ => false
  }

  predicate PromotesRow(e: Event, reply: Reply, role: Role, i: nat, a: Subject) {
    && reply.Activated?
    && match e.call
       case ActivateDeviceCall(_, _, d, credential) => role.Client? && d == i && a.slots.pending == Some(Sha256(credential))
       case ActivateConnectorCall(credential) => role.Connector? && a.slots.pending == Some(Sha256(credential))
       case _ => false
  }

  predicate TicketsRow(e: Event, reply: Reply, role: Role, i: nat, a: Subject) {
    && reply.TicketIssued?
    && match e.call
       case IssueBrowserTicketCall(_, _, d, credential, _) => role.Client? && d == i && a.slots.live == Some(Sha256(credential))
       case IssueConnectorTicketCall(credential) => role.Connector? && a.slots.live == Some(Sha256(credential))
       case _ => false
  }

  predicate ConfirmsRow(e: Event, reply: Reply, role: Role, i: nat) {
    && e.call.ConfirmPairingCall? && reply.PairingConfirmed?
    && i == (if role.Client? then reply.deviceID else reply.connectorID)
  }

  predicate RevokesRow(e: Event, reply: Reply, role: Role, i: nat, a: Subject) {
    reply == RevocationAnnounced(if role.Client? then Revocation(a.userID, None, Some(i), None) else Revocation(a.userID, Some(i), None, None))
  }

  function LifetimeOf(c: Config, role: Role): Time { if role.Client? then c.deviceLifetime else c.connectorLifetime }

  predicate Rotation(c: Config, e: Event, reply: Reply, role: Role, i: nat, a: Subject, b: Subject) {
    && RotatesRow(e, reply, role, i, a) && Current(a, e.now) && reply.activateBy == e.now + c.activationWindow
    && b == WithPending(a, Sha256(reply.credential), reply.activateBy)
  }

  predicate Promotion(c: Config, e: Event, reply: Reply, role: Role, i: nat, a: Subject, b: Subject) {
    && PromotesRow(e, reply, role, i, a) && a.revokedAt.None?
    && a.slots.pendingUntil.Some? && e.now < a.slots.pendingUntil.value
    && reply.expiresAt == e.now + LifetimeOf(c, role) && b == Promoted(a, reply.expiresAt)
  }

  predicate Cancellation(e: Event, reply: Reply, role: Role, i: nat, a: Subject, b: Subject) {
    TicketsRow(e, reply, role, i, a) && Current(a, e.now) && b == WithoutPending(a)
  }

  predicate Confirmation(c: Config, s: Store, e: Event, reply: Reply, role: Role, i: nat, a: Subject, b: Subject) {
    && ConfirmsRow(e, reply, role, i) && a.revokedAt.None?
    && e.call.pairingID in s.pairings && s.pairings[e.call.pairingID].state.Verification?
    && (role.Client? ==> b == ActivatedBy(WithLive(a, Some(Sha256(reply.credential)), e.now + c.deviceLifetime), e.now))
    && (role.Connector? ==> b == WithLive(a, s.pairings[e.call.pairingID].connectorCredentialHash, e.now + c.connectorLifetime))
  }

  predicate Revoking(e: Event, reply: Reply, role: Role, i: nat, a: Subject, b: Subject) {
    && RevokesRow(e, reply, role, i, a) && a.revokedAt.None?
    && b == a.(revokedAt := Some(e.now), slots := b.slots)
    && (b.slots == a.slots || b.slots == a.slots.(pending := None, pendingUntil := None))
  }

  ghost predicate RowEdge(c: Config, s: Store, t: Store, e: Event, reply: Reply, role: Role, i: nat)
    requires i in RowsOf(s, role) && i in RowsOf(t, role)
  {
    var a, b := RowsOf(s, role)[i], RowsOf(t, role)[i];
    || b == a
    || Rotation(c, e, reply, role, i, a, b)
    || Promotion(c, e, reply, role, i, a, b)
    || Cancellation(e, reply, role, i, a, b)
    || Confirmation(c, s, e, reply, role, i, a, b)
    || Revoking(e, reply, role, i, a, b)
  }

  lemma SameRow(c: Config, s: Store, t: Store, e: Event, reply: Reply, role: Role, i: nat)
    requires i in RowsOf(s, role) && i in RowsOf(t, role) && RowsOf(t, role)[i] == RowsOf(s, role)[i]
    ensures RowEdge(c, s, t, e, reply, role, i)
  {
  }

  lemma DeviceStepEdge(c: Config, s: Store, e: Event, i: nat)
    requires DeviceCall(e.call) && i in s.devices
    ensures var (t, reply) := DeviceStep(c, s, e); i in t.devices && RowEdge(c, s, t, e, reply, Client, i)
  {
    hide ByCredential, ByAnyCredential, Confirmation, RowEdge;
    var (t, reply) := DeviceStep(c, s, e);
    match e.call
    case RotateDeviceCall(_, _, _, _) => RotateDeviceEdge(c, s, t, e, reply, i);
    case ActivateDeviceCall(_, _, _, _) => ActivateDeviceEdge(c, s, t, e, reply, i);
    case RevokeAccountDeviceCall(_, _) => RevokeDeviceEdge(c, s, t, e, reply, i);
    case IssueBrowserTicketCall(_, _, _, _, _) => BrowserTicketEdge(c, s, t, e, reply, i);
  }

  lemma RotateDeviceEdge(c: Config, s: Store, t: Store, e: Event, reply: Reply, i: nat)
    requires e.call.RotateDeviceCall? && i in s.devices
    requires (t, reply) == RotateDevice(c, s, e.call.userID, e.call.sessionID, e.call.deviceID, e.call.credential, e.now, e.account, e.session)
    ensures i in t.devices && RowEdge(c, s, t, e, reply, Client, i)
  {
    hide Promotion, Cancellation, Confirmation, Revoking;
  }

  lemma ActivateDeviceEdge(c: Config, s: Store, t: Store, e: Event, reply: Reply, i: nat)
    requires e.call.ActivateDeviceCall? && i in s.devices
    requires (t, reply) == ActivateDevice(c, s, e.call.userID, e.call.sessionID, e.call.deviceID, e.call.credential, e.now, e.account, e.session)
    ensures i in t.devices && RowEdge(c, s, t, e, reply, Client, i)
  {
    hide Rotation, Cancellation, Confirmation, Revoking;
  }

  lemma RevokeDeviceEdge(c: Config, s: Store, t: Store, e: Event, reply: Reply, i: nat)
    requires e.call.RevokeAccountDeviceCall? && i in s.devices
    requires (t, reply) == RevokeAccountDevice(s, e.call.userID, e.call.deviceID, e.now, e.account)
    ensures i in t.devices && RowEdge(c, s, t, e, reply, Client, i)
  {
    hide Rotation, Promotion, Cancellation, Confirmation, RevokeDeviceTrust;
  }

  lemma BrowserTicketEdge(c: Config, s: Store, t: Store, e: Event, reply: Reply, i: nat)
    requires e.call.IssueBrowserTicketCall? && i in s.devices
    requires (t, reply) == IssueBrowserTicket(c, s, e.call.userID, e.call.sessionID, e.call.deviceID, e.call.credential,
                                              e.call.accessExpiresAt, e.now, e.account, e.session)
    ensures i in t.devices && RowEdge(c, s, t, e, reply, Client, i)
  {
    hide Rotation, Promotion, Confirmation, Revoking, NewTicket, Earlier;
  }

  lemma RotateConnectorEdge(c: Config, s: Store, t: Store, e: Event, reply: Reply, i: nat)
    requires e.call.RotateConnectorCall? && i in s.connectors
    requires (t, reply) == RotateConnector(c, s, e.call.credential, e.now, e.account)
    ensures i in t.connectors && RowEdge(c, s, t, e, reply, Connector, i)
  {
    hide Promotion, Cancellation, Confirmation, Revoking;
  }

  lemma ActivateConnectorEdge(c: Config, s: Store, t: Store, e: Event, reply: Reply, i: nat)
    requires e.call.ActivateConnectorCall? && i in s.connectors
    requires (t, reply) == ActivateConnector(c, s, e.call.credential, e.now, e.account)
    ensures i in t.connectors && RowEdge(c, s, t, e, reply, Connector, i)
  {
    hide Rotation, Cancellation, Confirmation, Revoking;
  }

  lemma RevokeConnectorEdge(c: Config, s: Store, t: Store, e: Event, reply: Reply, i: nat)
    requires i in s.connectors
    requires (e.call.RevokeConnectorCall? && (t, reply) == RevokeConnector(s, e.call.credential, e.now))
          || (e.call.RevokeAccountConnectorCall? && (t, reply) == RevokeAccountConnector(s, e.call.userID, e.call.connectorID, e.now, e.account))
    ensures i in t.connectors && RowEdge(c, s, t, e, reply, Connector, i)
  {
    hide Rotation, Promotion, Cancellation, Confirmation;
  }

  lemma ConnectorTicketEdge(c: Config, s: Store, t: Store, e: Event, reply: Reply, i: nat)
    requires e.call.IssueConnectorTicketCall? && i in s.connectors
    requires (t, reply) == IssueConnectorTicket(c, s, e.call.credential, e.now, e.account)
    ensures i in t.connectors && RowEdge(c, s, t, e, reply, Connector, i)
  {
    hide Rotation, Promotion, Confirmation, Revoking, NewTicket, Earlier;
  }

  lemma ConnectorStepEdge(c: Config, s: Store, e: Event, i: nat)
    requires ConnectorCall(e.call) && i in s.connectors
    ensures var (t, reply) := ConnectorStep(c, s, e); i in t.connectors && RowEdge(c, s, t, e, reply, Connector, i)
  {
    hide RotateConnector, ActivateConnector, RevokeConnector, RevokeAccountConnector, IssueConnectorTicket, RowEdge;
    var (t, reply) := ConnectorStep(c, s, e);
    match e.call
    case RotateConnectorCall(_) => RotateConnectorEdge(c, s, t, e, reply, i);
    case ActivateConnectorCall(_) => ActivateConnectorEdge(c, s, t, e, reply, i);
    case RevokeConnectorCall(_) => RevokeConnectorEdge(c, s, t, e, reply, i);
    case RevokeAccountConnectorCall(_, _) => RevokeConnectorEdge(c, s, t, e, reply, i);
    case IssueConnectorTicketCall(_) => ConnectorTicketEdge(c, s, t, e, reply, i);
  }

  // ---------------------------------------------------------------- pairing calls and rows

  lemma ConnectorForStays(s: Store, userID: UserId, identity: PublicIdentity, now: Time, i: nat)
    requires ConnectorFor(s, userID, identity, now).Some? && i in s.connectors && s.next !in s.connectors
    ensures var t := ConnectorFor(s, userID, identity, now).value.0; i in t.connectors && t.connectors[i] == s.connectors[i]
    ensures var (t, k) := ConnectorFor(s, userID, identity, now).value; k == i ==> s.connectors[i].revokedAt.None?
  {
  }

  lemma ConfirmRowEdge(c: Config, s: Store, t: Store, e: Event, reply: Reply, role: Role, i: nat)
    requires e.call.ConfirmPairingCall? && i in RowsOf(s, role) && s.next !in s.connectors
    requires (t, reply) == ConfirmPairing(c, s, e.call.userID, e.call.pairingID, e.call.deviceID, e.now, e.account)
    ensures i in RowsOf(t, role) && RowEdge(c, s, t, e, reply, role, i)
  {
    hide ConfirmAgain, ConnectorFor, Rotation, Promotion, Cancellation, Revoking;
    if t != s && role.Connector? {
      ConnectorForStays(s, e.call.userID, s.pairings[e.call.pairingID].connectorIdentity, e.now, i);
    }
  }

  lemma DeviceForStays(s: Store, userID: UserId, identity: PublicIdentity, now: Time, i: nat)
    requires DeviceFor(s, userID, identity, now).Some? && i in s.devices && s.next !in s.devices
    ensures var t := DeviceFor(s, userID, identity, now).value.0; i in t.devices && t.devices[i] == s.devices[i]
  {
  }

  lemma ClaimKeepsDevices(s: Store, userID: UserId, userCode: string, identity: PublicIdentity, proven: bool, challenge: Secret,
                          now: Time, account: Auth, i: nat)
    requires i in s.devices && s.next !in s.devices
    ensures var t := ClaimPairing(s, userID, userCode, identity, proven, challenge, now, account).0;
      i in t.devices && t.devices[i] == s.devices[i]
  {
    hide ClaimWithCode, ValidKeyID;
    if Sha256(challenge) in s.challenges {
      CodeKeepsDevices(s, UseChallenge(s, challenge, now), userID, identity, UserCodes.Normalize(UserCodes.Normalize(userCode)), now, i);
    }
  }

  lemma CodeKeepsDevices(s: Store, used: Store, userID: UserId, identity: PublicIdentity, code: string, now: Time, i: nat)
    requires used.devices == s.devices && used.next == s.next && i in s.devices && s.next !in s.devices
    ensures var t := ClaimWithCode(s, used, userID, identity, code, now).0; i in t.devices && t.devices[i] == s.devices[i]
  {
    hide PairingByCode, DeviceFor;
    if DeviceFor(used, userID, identity, now).Some? { DeviceForStays(used, userID, identity, now, i); }
  }

  lemma NewIDs(c: Config, s: Store)
    requires Inv(c, s)
    ensures s.next !in s.devices && s.next !in s.connectors
  {
  }

  /** Of the pairing calls only a confirmation touches rows that exist. */
  lemma OtherPairingCalls(c: Config, s: Store, e: Event, role: Role, i: nat)
    requires Inv(c, s) && PairingCall(e.call) && !e.call.ConfirmPairingCall? && i in RowsOf(s, role)
    ensures var t := PairingStep(c, s, e).0; i in RowsOf(t, role) && RowsOf(t, role)[i] == RowsOf(s, role)[i]
  {
    NewIDs(c, s);
    hide Inv, BeginPairing, ClaimPairing, ConfirmPairing, PollPairing, ApprovePairing, CancelPairing;
    match e.call
    case BeginPairingCall(_, _, _, _) =>
    case ClaimPairingCall(userID, userCode, identity, proven, challenge) =>
      if role.Client? { ClaimKeepsDevices(s, userID, userCode, identity, proven, challenge, e.now, e.account, i); }
    case PollPairingCall(secret) => PollKeepsRows(c, s, secret, e.now);
    case ApprovePairingCall(_, _, _) =>
    case CancelPairingCall(_, _) =>
  }

  lemma PollKeepsRows(c: Config, s: Store, secret: Secret, now: Time)
    requires Inv(c, s)
    ensures var t := PollPairing(c, s, secret, now).0; t.devices == s.devices && t.connectors == s.connectors
  {
    hide Inv, PollPairing, PairingBySecret;
    PollOnlyExpires(c, s, secret, now);
  }

  lemma PairingStepEdge(c: Config, s: Store, e: Event, role: Role, i: nat)
    requires Inv(c, s) && PairingCall(e.call) && i in RowsOf(s, role)
    ensures var (t, reply) := PairingStep(c, s, e); i in RowsOf(t, role) && RowEdge(c, s, t, e, reply, role, i)
  {
    hide BeginPairing, ClaimPairing, ConfirmPairing, PollPairing, ApprovePairing, CancelPairing, RowEdge, Inv;
    NewIDs(c, s);
    var (t, reply) := PairingStep(c, s, e);
    if e.call.ConfirmPairingCall? {
      ConfirmRowEdge(c, s, t, e, reply, role, i);
    } else {
      OtherPairingCalls(c, s, e, role, i);
      SameRow(c, s, t, e, reply, role, i);
    }
  }

  /** Everything one call can do to a device or connector row. */
  lemma StepRowEdge(c: Config, s: Store, e: Event, role: Role, i: nat)
    requires Inv(c, s) && i in RowsOf(s, role)
    ensures var (t, reply) := Step(c, s, e); i in RowsOf(t, role) && RowEdge(c, s, t, e, reply, role, i)
  {
    hide Inv, RowEdge, PairingStep, DeviceStep, ConnectorStep, TokenStep;
    var (t, reply) := Step(c, s, e);
    if PairingCall(e.call) {
      PairingStepEdge(c, s, e, role, i);
    } else if DeviceCall(e.call) {
      if role.Client? {
        DeviceStepEdge(c, s, e, i);
      } else {
        DeviceCallsKeep(c, s, e);
        SameRow(c, s, t, e, reply, role, i);
      }
    } else if ConnectorCall(e.call) {
      if role.Connector? {
        ConnectorStepEdge(c, s, e, i);
      } else {
        ConnectorCallsKeep(c, s, e);
        SameRow(c, s, t, e, reply, role, i);
      }
    } else {
      TokenCallsKeep(c, s, e);
      SameRow(c, s, t, e, reply, role, i);
    }
  }

  // ---------------------------------------------------------------- what an answer tells

  /** Whoever is told of a rotation, an activation or a ticket can rely on the row showing it. */
  ghost predicate Shown(c: Config, s: Store, t: Store, e: Event, reply: Reply, role: Role, i: nat)
    requires i in RowsOf(s, role) && i in RowsOf(t, role)
  {
    var a, b := RowsOf(s, role)[i], RowsOf(t, role)[i];
    && (RotatesRow(e, reply, role, i, a) ==> Rotation(c, e, reply, role, i, a, b) && !Born(s, Sha256(reply.credential)))
    && (PromotesRow(e, reply, role, i, a) ==> Promotion(c, e, reply, role, i, a, b))
    && (TicketsRow(e, reply, role, i, a) ==> Cancellation(e, reply, role, i, a, b))
  }

  lemma OneHolder(rows: Subjects, h: Digest, i: nat, j: nat)
    requires HoldersUnique(rows) && i in rows && j in rows && Holds(rows[i], h) && Holds(rows[j], h)
    ensures i == j
  {
  }

  lemma DeviceAnswers(c: Config, s: Store, e: Event, i: nat)
    requires DeviceCall(e.call) && i in s.devices
    requires s.devices[i].slots.pending.Some? ==> s.devices[i].slots.pending != s.devices[i].slots.live
    ensures var (t, reply) := DeviceStep(c, s, e); i in t.devices && Shown(c, s, t, e, reply, Client, i)
  {
    hide Shown, RotateDevice, ActivateDevice, RevokeAccountDevice, IssueBrowserTicket;
    var (t, reply) := DeviceStep(c, s, e);
    match e.call
    case RotateDeviceCall(_, _, _, _) => RotateDeviceShown(c, s, t, e, reply, i);
    case ActivateDeviceCall(_, _, _, _) => ActivateDeviceShown(c, s, t, e, reply, i);
    case RevokeAccountDeviceCall(_, _) => RevokeShown(c, s, t, e, reply, Client, i);
    case IssueBrowserTicketCall(_, _, _, _, _) => BrowserTicketShown(c, s, t, e, reply, i);
  }

  lemma RotateDeviceShown(c: Config, s: Store, t: Store, e: Event, reply: Reply, i: nat)
    requires e.call.RotateDeviceCall? && i in s.devices && i in t.devices
    requires (t, reply) == RotateDevice(c, s, e.call.userID, e.call.sessionID, e.call.deviceID, e.call.credential, e.now, e.account, e.session)
    ensures Shown(c, s, t, e, reply, Client, i)
  {
    hide Promotion, Cancellation;
  }

  lemma ActivateDeviceShown(c: Config, s: Store, t: Store, e: Event, reply: Reply, i: nat)
    requires e.call.ActivateDeviceCall? && i in s.devices && i in t.devices
    requires s.devices[i].slots.pending.Some? ==> s.devices[i].slots.pending != s.devices[i].slots.live
    requires (t, reply) == ActivateDevice(c, s, e.call.userID, e.call.sessionID, e.call.deviceID, e.call.credential, e.now, e.account, e.session)
    ensures Shown(c, s, t, e, reply, Client, i)
  {
    hide Rotation, Cancellation;
  }

  lemma RevokeShown(c: Config, s: Store, t: Store, e: Event, reply: Reply, role: Role, i: nat)
    requires e.call.RevokeAccountDeviceCall? || e.call.RevokeConnectorCall? || e.call.RevokeAccountConnectorCall?
    requires i in RowsOf(s, role) && i in RowsOf(t, role)
    ensures Shown(c, s, t, e, reply, role, i)
  {
    hide Rotation, Promotion, Cancellation;
  }

  lemma BrowserTicketShown(c: Config, s: Store, t: Store, e: Event, reply: Reply, i: nat)
    requires e.call.IssueBrowserTicketCall? && i in s.devices && i in t.devices
    requires (t, reply) == IssueBrowserTicket(c, s, e.call.userID, e.call.sessionID, e.call.deviceID, e.call.credential,
                                              e.call.accessExpiresAt, e.now, e.account, e.session)
    ensures Shown(c, s, t, e, reply, Client, i)
  {
    hide Rotation, Promotion, NewTicket, Earlier;
  }

  lemma ConnectorAnswers(c: Config, s: Store, e: Event, i: nat)
    requires ConnectorCall(e.call) && i in s.connectors && HoldersUnique(s.connectors)
    requires s.connectors[i].slots.pending.Some? ==> s.connectors[i].slots.pending != s.connectors[i].slots.live
    ensures var (t, reply) := ConnectorStep(c, s, e); i in t.connectors && Shown(c, s, t, e, reply, Connector, i)
  {
    hide Shown, HoldersUnique, RotateConnector, ActivateConnector, RevokeConnector, RevokeAccountConnector, IssueConnectorTicket;
    var (t, reply) := ConnectorStep(c, s, e);
    match e.call
    case RotateConnectorCall(_) => RotateConnectorShown(c, s, t, e, reply, i);
    case ActivateConnectorCall(_) => ActivateConnectorShown(c, s, t, e, reply, i);
    case RevokeConnectorCall(_) => RevokeShown(c, s, t, e, reply, Connector, i);
    case RevokeAccountConnectorCall(_, _) => RevokeShown(c, s, t, e, reply, Connector, i);
    case IssueConnectorTicketCall(_) => ConnectorTicketShown(c, s, t, e, reply, i);
  }

  lemma RotateConnectorShown(c: Config, s: Store, t: Store, e: Event, reply: Reply, i: nat)
    requires e.call.RotateConnectorCall? && i in s.connectors && i in t.connectors && HoldersUnique(s.connectors)
    requires (t, reply) == RotateConnector(c, s, e.call.credential, e.now, e.account)
    ensures Shown(c, s, t, e, reply, Connector, i)
  {
    hide Promotion, Cancellation, HoldersUnique;
    var h := Sha256(e.call.credential);
    if ByCredential(s.connectors, h).Some? && Holds(s.connectors[i], h) {
      OneHolder(s.connectors, h, ByCredential(s.connectors, h).value, i);
    }
  }

  lemma ActivateConnectorShown(c: Config, s: Store, t: Store, e: Event, reply: Reply, i: nat)
    requires e.call.ActivateConnectorCall? && i in s.connectors && i in t.connectors && HoldersUnique(s.connectors)
    requires s.connectors[i].slots.pending.Some? ==> s.connectors[i].slots.pending != s.connectors[i].slots.live
    requires (t, reply) == ActivateConnector(c, s, e.call.credential, e.now, e.account)
    ensures Shown(c, s, t, e, reply, Connector, i)
  {
    hide Rotation, Cancellation, HoldersUnique;
    var h := Sha256(e.call.credential);
    if ByAnyCredential(s.connectors, h).Some? && Holds(s.connectors[i], h) {
      OneHolder(s.connectors, h, ByAnyCredential(s.connectors, h).value, i);
    }
  }

  lemma ConnectorTicketShown(c: Config, s: Store, t: Store, e: Event, reply: Reply, i: nat)
    requires e.call.IssueConnectorTicketCall? && i in s.connectors && i in t.connectors && HoldersUnique(s.connectors)
    requires (t, reply) == IssueConnectorTicket(c, s, e.call.credential, e.now, e.account)
    ensures Shown(c, s, t, e, reply, Connector, i)
  {
    hide Rotation, Promotion, NewTicket, HoldersUnique;
    var h := Sha256(e.call.credential);
    if ByCredential(s.connectors, h).Some? && Holds(s.connectors[i], h) {
      OneHolder(s.connectors, h, ByCredential(s.connectors, h).value, i);
    }
  }

  lemma SlotsApart(c: Config, s: Store, role: Role)
    requires Inv(c, s)
    ensures HoldersUnique(RowsOf(s, role))
    ensures var rows := RowsOf(s, role); forall d :: d in rows && rows[d].slots.pending.Some? ==> rows[d].slots.pending != rows[d].slots.live
  {
  }

  lemma OtherAnswers(c: Config, s: Store, t: Store, e: Event, reply: Reply, role: Role, i: nat)
    requires i in RowsOf(s, role) && i in RowsOf(t, role)
    requires !(DeviceCall(e.call) && role.Client?) && !(ConnectorCall(e.call) && role.Connector?)
    ensures Shown(c, s, t, e, reply, role, i)
  {
    hide Rotation, Promotion, Cancellation;
  }

  lemma AnswersShow(c: Config, s: Store, e: Event, role: Role, i: nat)
    requires Inv(c, s) && i in RowsOf(s, role)
    ensures var (t, reply) := Step(c, s, e); i in RowsOf(t, role) && Shown(c, s, t, e, reply, role, i)
  {
    hide Inv, RowEdge, PairingStep, DeviceStep, ConnectorStep, TokenStep, HoldersUnique, Shown;
    SlotsApart(c, s, role);
    StepRowEdge(c, s, e, role, i);
    var (t, reply) := Step(c, s, e);
    if DeviceCall(e.call) && role.Client? {
      DeviceAnswers(c, s, e, i);
    } else if ConnectorCall(e.call) && role.Connector? {
      ConnectorAnswers(c, s, e, i);
    } else {
      OtherAnswers(c, s, t, e, reply, role, i);
    }
  }

  /** A row that a call creates has no rotation pending. */
  lemma NewRowsAreBare(c: Config, s: Store, e: Event, role: Role, i: nat)
    requires Inv(c, s) && i !in RowsOf(s, role) && i in RowsOf(Step(c, s, e).0, role)
    ensures RowsOf(Step(c, s, e).0, role)[i].slots.pending.None?
  {
    hide Inv, PairingStep, DeviceStep, ConnectorStep, TokenStep;
    if PairingCall(e.call) {
      PairingStepBare(c, s, e, role, i);
    } else if DeviceCall(e.call) {
      DeviceCallsKeep(c, s, e);
      DeviceStepCreatesNone(c, s, e);
    } else if ConnectorCall(e.call) {
      ConnectorCallsKeep(c, s, e);
      ConnectorStepCreatesNone(c, s, e);
    } else {
      TokenCallsKeep(c, s, e);
    }
  }

  lemma DeviceStepCreatesNone(c: Config, s: Store, e: Event)
    requires DeviceCall(e.call)
    ensures DeviceStep(c, s, e).0.devices.Keys == s.devices.Keys
  {
    hide RotateDevice, ActivateDevice, RevokeAccountDevice, IssueBrowserTicket;
  }

  lemma ConnectorStepCreatesNone(c: Config, s: Store, e: Event)
    requires ConnectorCall(e.call)
    ensures ConnectorStep(c, s, e).0.connectors.Keys == s.connectors.Keys
  {
    hide RotateConnector, ActivateConnector, RevokeConnector, RevokeAccountConnector, IssueConnectorTicket;
  }

  lemma PairingStepBare(c: Config, s: Store, e: Event, role: Role, i: nat)
    requires Inv(c, s) && PairingCall(e.call) && i !in RowsOf(s, role) && i in RowsOf(PairingStep(c, s, e).0, role)
    ensures RowsOf(PairingStep(c, s, e).0, role)[i].slots.pending.None?
  {
    hide Inv, BeginPairing, ClaimPairing, ConfirmPairing, PollPairing, ApprovePairing, CancelPairing;
    match e.call
    case BeginPairingCall(_, _, _, _) =>
    case ClaimPairingCall(userID, userCode, identity, proven, challenge) =>
      ClaimBare(s, userID, userCode, identity, proven, challenge, e.now, e.account, i);
    case ConfirmPairingCall(userID, id, d) => ConfirmBare(c, s, userID, id, d, e.now, e.account, i);
    case PollPairingCall(secret) => PollKeepsRows(c, s, secret, e.now);
    case ApprovePairingCall(_, _, _) =>
    case CancelPairingCall(_, _) =>
  }

  lemma ClaimBare(s: Store, userID: UserId, userCode: string, identity: PublicIdentity, proven: bool, challenge: Secret,
                  now: Time, account: Auth, i: nat)
    ensures var t := ClaimPairing(s, userID, userCode, identity, proven, challenge, now, account).0;
      i !in s.devices && i in t.devices ==> t.devices[i].slots.pending.None?
  {
    hide ClaimWithCode, ValidKeyID;
    if Sha256(challenge) in s.challenges {
      CodeBare(s, UseChallenge(s, challenge, now), userID, identity, UserCodes.Normalize(UserCodes.Normalize(userCode)), now, i);
    }
  }

  lemma CodeBare(s: Store, used: Store, userID: UserId, identity: PublicIdentity, code: string, now: Time, i: nat)
    requires used.devices == s.devices
    ensures var t := ClaimWithCode(s, used, userID, identity, code, now).0;
      i !in s.devices && i in t.devices ==> t.devices[i].slots.pending.None?
  {
    hide PairingByCode, DeviceFor;
    if DeviceFor(used, userID, identity, now).Some? { NewDeviceBare(used, userID, identity, now, i); }
  }

  lemma NewDeviceBare(s: Store, userID: UserId, identity: PublicIdentity, now: Time, i: nat)
    requires DeviceFor(s, userID, identity, now).Some?
    ensures var t := DeviceFor(s, userID, identity, now).value.0; i !in s.devices && i in t.devices ==> t.devices[i].slots.pending.None?
  {
  }

  lemma ConfirmBare(c: Config, s: Store, userID: UserId, id: nat, d: nat, now: Time, account: Auth, i: nat)
    ensures var t := ConfirmPairing(c, s, userID, id, d, now, account).0;
      && (i !in s.devices && i in t.devices ==> t.devices[i].slots.pending.None?)
      && (i !in s.connectors && i in t.connectors ==> t.connectors[i].slots.pending.None?)
  {
    hide ConfirmAgain, ByKeyID;
  }
}
