/** A revoked device or connector over whole runs: its row is frozen, nothing is answered for it
    any more, and its live admissions fail their checks. */
module RevocationRuns {
  import opened ConnectorTypes
  import opened ConnectorStore
  import opened ConnectorWrites
  import opened PairingSpec
  import opened CredentialSpec
  import opened ConnectorRuns
  import opened CredentialHistory
  import opened CredentialRuns
  import UserCodes

  /** The row never changes again, and a revoked device keeps no trust. */
  lemma RevokedIsFrozen(c: Config, events: seq<Event>, i: nat, j: nat, role: Role, row: nat)
    requires i <= j <= |events| && Exists(c, events, i, role, row) && RowAt(c, events, i, role, row).revokedAt.Some?
    ensures Exists(c, events, j, role, row) && RowAt(c, events, j, role, row) == RowAt(c, events, i, role, row)
    ensures role.Client? ==>
      forall k :: k in StateAt(c, events, j).trust && k.deviceID == row ==> StateAt(c, events, j).trust[k].revokedAt.Some?
  {
    hide StateAt, RowsOk, PairingsOk, CodesUnique, OneActivePerKey, TokensOk;
    RowForward(c, events, i, j, role, row);
    StateIsOk(c, events, j);
  }

  /** The answer hands something to this row, binds it to a pairing, admits it or upholds it. */
  predicate Serves(s: Store, e: Event, reply: Reply, role: Role, i: nat)
    requires i in RowsOf(s, role)
  {
    match reply
    case Rotated(_, _) => Addresses(s, e, role, i)
    case Activated(_) => Addresses(s, e, role, i)
    case TicketIssued(_, _) => Addresses(s, e, role, i)
    case Claimed(_, d, _) => role.Client? && d == i
    case PairingConfirmed(d, k, _, _) => i == (if role.Client? then d else k)
    case Polled(_, _, _, _, grant) => role.Connector? && grant.Some? && grant.value.connectorID == i
    case Admitted(a) => a.role == role && a.subjectID == i
    case Valid => e.call.ValidateAdmissionCall? && e.call.admission.role == role && e.call.admission.subjectID == i
    case _ => false
  }

  predicate Addresses(s: Store, e: Event, role: Role, i: nat)
    requires i in RowsOf(s, role)
  {
    if role.Client? then DeviceCall(e.call) && e.call.deviceID == i
    else ConnectorCall(e.call) && !e.call.RevokeAccountConnectorCall? && Holds(s.connectors[i], Sha256(e.call.credential))
  }

  lemma DeviceRefused(c: Config, s: Store, e: Event, i: nat)
    requires DeviceCall(e.call) && i in s.devices && s.devices[i].revokedAt.Some?
    ensures !Serves(s, e, DeviceStep(c, s, e).1, Client, i)
  {
    hide RevokeDeviceTrust, NewTicket, Earlier;
  }

  lemma ConnectorRefused(c: Config, s: Store, e: Event, i: nat)
    requires ConnectorCall(e.call) && i in s.connectors && s.connectors[i].revokedAt.Some? && HoldersUnique(s.connectors)
    ensures !Serves(s, e, ConnectorStep(c, s, e).1, Connector, i)
  {
    hide HoldersUnique, NewTicket;
    if !e.call.RevokeAccountConnectorCall? && Holds(s.connectors[i], Sha256(e.call.credential)) {
      var h := Sha256(e.call.credential);
      if ByCredential(s.connectors, h).Some? { OneHolder(s.connectors, h, ByCredential(s.connectors, h).value, i); }
      if ByAnyCredential(s.connectors, h).Some? { OneHolder(s.connectors, h, ByAnyCredential(s.connectors, h).value, i); }
    }
  }

  lemma ClaimRefused(s: Store, userID: UserId, userCode: string, identity: PublicIdentity, proven: bool, challenge: Secret,
                     now: Time, account: Auth, i: nat)
    requires i in s.devices && s.devices[i].revokedAt.Some? && s.next !in s.devices
    ensures var reply := ClaimPairing(s, userID, userCode, identity, proven, challenge, now, account).1;
      reply.Refused? || (reply.Claimed? && reply.deviceID != i)
  {
    hide ClaimWithCode, ValidKeyID;
    if Sha256(challenge) in s.challenges {
      CodeRefused(s, UseChallenge(s, challenge, now), userID, identity, UserCodes.Normalize(UserCodes.Normalize(userCode)), now, i);
    }
  }

  lemma CodeRefused(s: Store, used: Store, userID: UserId, identity: PublicIdentity, code: string, now: Time, i: nat)
    requires used.devices == s.devices && used.next == s.next
    requires i in s.devices && s.devices[i].revokedAt.Some? && s.next !in s.devices
    ensures var reply := ClaimWithCode(s, used, userID, identity, code, now).1; reply.Refused? || (reply.Claimed? && reply.deviceID != i)
  {
    hide PairingByCode;
  }

  lemma ConfirmRefused(c: Config, s: Store, userID: UserId, id: nat, d: nat, now: Time, account: Auth, role: Role, i: nat)
    requires i in RowsOf(s, role) && RowsOf(s, role)[i].revokedAt.Some? && s.next !in s.connectors
    ensures var reply := ConfirmPairing(c, s, userID, id, d, now, account).1;
      reply.Refused? || (reply.PairingConfirmed? && i != (if role.Client? then reply.deviceID else reply.connectorID))
  {
  }

  lemma PollRefused(c: Config, s: Store, secret: Secret, now: Time, i: nat)
    requires i in s.connectors && s.connectors[i].revokedAt.Some?
    ensures var reply := PollPairing(c, s, secret, now).1;
      reply.Refused? || (reply.Polled? && (reply.grant.None? || reply.grant.value.connectorID != i))
  {
    hide PairingBySecret;
  }

  lemma PairingRefused(c: Config, s: Store, e: Event, role: Role, i: nat)
    requires Inv(c, s) && PairingCall(e.call) && i in RowsOf(s, role) && RowsOf(s, role)[i].revokedAt.Some?
    ensures !Serves(s, e, PairingStep(c, s, e).1, role, i)
  {
    hide Inv, BeginPairing, ClaimPairing, ConfirmPairing, PollPairing, ApprovePairing, CancelPairing;
    NewIDs(c, s);
    match e.call
    case BeginPairingCall(identity, proven, challenge, code) => BeginAnswers(c, s, identity, proven, challenge, code, e.now);
    case ClaimPairingCall(userID, userCode, identity, proven, challenge) =>
      if role.Client? { ClaimRefused(s, userID, userCode, identity, proven, challenge, e.now, e.account, i); }
      ClaimAnswers(s, userID, userCode, identity, proven, challenge, e.now, e.account);
    case ConfirmPairingCall(userID, id, d) => ConfirmRefused(c, s, userID, id, d, e.now, e.account, role, i);
    case PollPairingCall(secret) =>
      if role.Connector? { PollRefused(c, s, secret, e.now, i); }
      PollAnswers(c, s, secret, e.now);
    case ApprovePairingCall(id, secret, keyID) => ApproveAnswers(s, id, secret, keyID, e.now);
    case CancelPairingCall(id, secret) => CancelAnswers(s, id, secret);
  }

  lemma BeginAnswers(c: Config, s: Store, identity: PublicIdentity, proven: bool, challenge: Secret, code: string, now: Time)
    ensures var reply := BeginPairing(c, s, identity, proven, challenge, code, now).1; reply.Refused? || reply.Begun?
  {
  }

  lemma ClaimAnswers(s: Store, userID: UserId, userCode: string, identity: PublicIdentity, proven: bool, challenge: Secret,
                     now: Time, account: Auth)
    ensures var reply := ClaimPairing(s, userID, userCode, identity, proven, challenge, now, account).1; reply.Refused? || reply.Claimed?
  {
    hide PairingByCode, DeviceFor, ValidKeyID;
  }

  lemma PollAnswers(c: Config, s: Store, secret: Secret, now: Time)
    ensures var reply := PollPairing(c, s, secret, now).1; reply.Refused? || reply.Polled?
  {
    hide PairingBySecret;
  }

  lemma ApproveAnswers(s: Store, id: nat, secret: Secret, keyID: string, now: Time)
    ensures var reply := ApprovePairing(s, id, secret, keyID, now).1; reply.Refused? || reply.Approved?
  {
    hide PairingBySecret;
  }

  lemma CancelAnswers(s: Store, id: nat, secret: Secret)
    ensures var reply := CancelPairing(s, id, secret).1; reply.Refused? || reply.Cancelled?
  {
    hide PairingBySecret;
  }

  lemma TokenRefused(c: Config, s: Store, e: Event, role: Role, i: nat)
    requires !PairingCall(e.call) && !DeviceCall(e.call) && !ConnectorCall(e.call)
    requires i in RowsOf(s, role) && RowsOf(s, role)[i].revokedAt.Some?
    ensures !Serves(s, e, TokenStep(c, s, e).1, role, i)
  {
    hide TrustedIdentities, Earlier;
  }

  lemma RevokedRefused(c: Config, s: Store, e: Event, role: Role, i: nat)
    requires Inv(c, s) && i in RowsOf(s, role) && RowsOf(s, role)[i].revokedAt.Some?
    ensures !Serves(s, e, Step(c, s, e).1, role, i)
  {
    SlotsApart(c, s, role);
    hide Inv, Serves, PairingStep, DeviceStep, ConnectorStep, TokenStep, HoldersUnique;
    if PairingCall(e.call) {
      PairingRefused(c, s, e, role, i);
    } else if DeviceCall(e.call) {
      DeviceCallRefused(c, s, e, role, i);
    } else if ConnectorCall(e.call) {
      ConnectorCallRefused(c, s, e, role, i);
    } else {
      TokenRefused(c, s, e, role, i);
    }
  }

  lemma DeviceAnswerKinds(c: Config, s: Store, e: Event)
    requires DeviceCall(e.call)
    ensures var reply := DeviceStep(c, s, e).1;
      reply.Refused? || reply.Rotated? || reply.Activated? || reply.TicketIssued? || reply.RevocationAnnounced?
  {
    hide ByCredential, ByAnyCredential, RevokeDeviceTrust, NewTicket, Earlier;
  }

  lemma ConnectorAnswerKinds(c: Config, s: Store, e: Event)
    requires ConnectorCall(e.call)
    ensures var reply := ConnectorStep(c, s, e).1;
      reply.Refused? || reply.Rotated? || reply.Activated? || reply.TicketIssued? || reply.RevocationAnnounced?
  {
    hide ByCredential, ByAnyCredential, NewTicket;
  }

  lemma DeviceCallRefused(c: Config, s: Store, e: Event, role: Role, i: nat)
    requires DeviceCall(e.call) && i in RowsOf(s, role) && RowsOf(s, role)[i].revokedAt.Some?
    ensures !Serves(s, e, DeviceStep(c, s, e).1, role, i)
  {
    hide DeviceStep;
    DeviceAnswerKinds(c, s, e);
    if role.Client? { DeviceRefused(c, s, e, i); }
  }

  lemma ConnectorCallRefused(c: Config, s: Store, e: Event, role: Role, i: nat)
    requires ConnectorCall(e.call) && i in RowsOf(s, role) && RowsOf(s, role)[i].revokedAt.Some? && HoldersUnique(RowsOf(s, role))
    ensures !Serves(s, e, ConnectorStep(c, s, e).1, role, i)
  {
    hide ConnectorStep;
    ConnectorAnswerKinds(c, s, e);
    if role.Connector? { ConnectorRefused(c, s, e, i); }
  }

  /** Once a device or connector is revoked, no later call of any kind is answered for it: no
      ticket, consumption, rotation, activation, claim, confirmation, poll or check. */
  lemma RevokedIsNeverServed(c: Config, events: seq<Event>, i: nat, j: nat, role: Role, row: nat)
    requires i <= j < |events| && Exists(c, events, i, role, row) && RowAt(c, events, i, role, row).revokedAt.Some?
    ensures Exists(c, events, j, role, row)
    ensures !Serves(StateAt(c, events, j), events[j], ReplyAt(c, events, j), role, row)
  {
    hide Step, Serves, Inv;
    RevokedIsFrozen(c, events, i, j, role, row);
    StateIsOk(c, events, j);
    RevokedRefused(c, StateAt(c, events, j), events[j], role, row);
  }

  // ---------------------------------------------------------------- announcements

  predicate Announced(s: Store, r: Revocation) {
    || (r.connectorID.Some? && r.connectorID.value in s.connectors && s.connectors[r.connectorID.value].userID == r.userID
        && s.connectors[r.connectorID.value].revokedAt.Some?)
    || (r.connectorID.None? && r.deviceID.Some? && r.deviceID.value in s.devices && s.devices[r.deviceID.value].userID == r.userID
        && s.devices[r.deviceID.value].revokedAt.Some?)
  }

  lemma DeviceAnnounces(c: Config, s: Store, e: Event)
    requires DeviceCall(e.call)
    ensures var (t, reply) := DeviceStep(c, s, e); reply.RevocationAnnounced? ==> Announced(t, reply.revocation)
  {
    hide ByCredential, ByAnyCredential, RevokeDeviceTrust, NewTicket, Earlier;
  }

  lemma ConnectorAnnounces(c: Config, s: Store, e: Event)
    requires ConnectorCall(e.call)
    ensures var (t, reply) := ConnectorStep(c, s, e); reply.RevocationAnnounced? ==> Announced(t, reply.revocation)
  {
    hide Announced, RotateConnector, ActivateConnector, RevokeConnector, RevokeAccountConnector, IssueConnectorTicket;
    match e.call
    case RevokeConnectorCall(credential) => OwnAnnounces(s, credential, e.now);
    case RevokeAccountConnectorCall(userID, k) => AccountAnnounces(s, userID, k, e.now, e.account);
    case _ => OtherConnectorCallsAnnounceNothing(c, s, e);
  }

  lemma OwnAnnounces(s: Store, credential: Secret, now: Time)
    ensures var (t, reply) := RevokeConnector(s, credential, now); reply.RevocationAnnounced? ==> Announced(t, reply.revocation)
  {
    hide ByCredential;
  }

  lemma AccountAnnounces(s: Store, userID: UserId, k: nat, now: Time, account: Auth)
    ensures var (t, reply) := RevokeAccountConnector(s, userID, k, now, account);
      reply.RevocationAnnounced? ==> Announced(t, reply.revocation)
  {
  }

  lemma OtherConnectorCallsAnnounceNothing(c: Config, s: Store, e: Event)
    requires e.call.RotateConnectorCall? || e.call.ActivateConnectorCall? || e.call.IssueConnectorTicketCall?
    ensures !ConnectorStep(c, s, e).1.RevocationAnnounced?
  {
    hide ByCredential, ByAnyCredential, NewTicket;
  }

  lemma OthersAnnounceNothing(c: Config, s: Store, e: Event)
    requires !DeviceCall(e.call) && !ConnectorCall(e.call)
    ensures !Step(c, s, e).1.RevocationAnnounced?
  {
    hide DeviceStep, ConnectorStep, BeginPairing, ClaimPairing, ConfirmPairing, PollPairing, ApprovePairing, CancelPairing,
      TrustedIdentities;
    match e.call
    case BeginPairingCall(identity, proven, challenge, code) => BeginAnswers(c, s, identity, proven, challenge, code, e.now);
    case ClaimPairingCall(userID, userCode, identity, proven, challenge) =>
      ClaimAnswers(s, userID, userCode, identity, proven, challenge, e.now, e.account);
    case ConfirmPairingCall(userID, id, d) => ConfirmAnswers(c, s, userID, id, d, e.now, e.account);
    case PollPairingCall(secret) => PollAnswers(c, s, secret, e.now);
    case ApprovePairingCall(id, secret, keyID) => ApproveAnswers(s, id, secret, keyID, e.now);
    case CancelPairingCall(id, secret) => CancelAnswers(s, id, secret);
    case _ =>
  }

  lemma ConfirmAnswers(c: Config, s: Store, userID: UserId, id: nat, d: nat, now: Time, account: Auth)
    ensures var reply := ConfirmPairing(c, s, userID, id, d, now, account).1; reply.Refused? || reply.PairingConfirmed?
  {
    hide ConnectorFor;
  }

  /** What is announced has been committed: the row it names is revoked in the account it names. */
  lemma AnnouncedIsCommitted(c: Config, s: Store, e: Event)
    ensures var (t, reply) := Step(c, s, e); reply.RevocationAnnounced? ==> Announced(t, reply.revocation)
  {
    OthersAnnounce(c, s, e);
    hide PairingStep, DeviceStep, ConnectorStep, TokenStep, Announced;
    if DeviceCall(e.call) {
      DeviceAnnounces(c, s, e);
    } else if ConnectorCall(e.call) {
      ConnectorAnnounces(c, s, e);
    }
  }

  lemma OthersAnnounce(c: Config, s: Store, e: Event)
    ensures !DeviceCall(e.call) && !ConnectorCall(e.call) ==> !Step(c, s, e).1.RevocationAnnounced?
  {
    hide Step;
    if !DeviceCall(e.call) && !ConnectorCall(e.call) { OthersAnnounceNothing(c, s, e); }
  }

  lemma AnnouncedStays(c: Config, events: seq<Event>, i: nat, j: nat, r: Revocation)
    requires i <= j <= |events| && Announced(StateAt(c, events, i), r)
    ensures Announced(StateAt(c, events, j), r)
  {
    hide StateAt;
    if r.connectorID.Some? {
      RowForward(c, events, i, j, Connector, r.connectorID.value);
    } else {
      RowForward(c, events, i, j, Client, r.deviceID.value);
    }
  }

  lemma CoveredIsRefused(s: Store, r: Revocation, a: Admission, now: Time, account: Auth, session: Auth)
    requires Announced(s, r) && r.Covers(a)
    ensures ValidateAdmission(s, a, now, account, session) == Refused(Unauthorized)
  {
  }

  /** After a revocation has been announced, every admission it covers fails every check with an
      authorization error, whatever the identity module answers: the relay's check can only deny. */
  lemma CoveredAdmissionFailsItsChecks(c: Config, events: seq<Event>, i: nat, j: nat, r: Revocation, a: Admission)
    requires i < j < |events| && ReplyAt(c, events, i) == RevocationAnnounced(r) && r.Covers(a)
    requires events[j].call == ValidateAdmissionCall(a)
    ensures ReplyAt(c, events, j) == Refused(Unauthorized)
  {
    hide PairingStep, DeviceStep, ConnectorStep, ValidateAdmission, Announced;
    AnnouncedIsCommitted(c, StateAt(c, events, i), events[i]);
    AnnouncedStays(c, events, i + 1, j, r);
    CoveredIsRefused(StateAt(c, events, j), r, a, events[j].now, events[j].account, events[j].session);
  }
}
