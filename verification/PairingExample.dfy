/** One pairing from beginning to end, for any account, keys and code. */
module PairingExample {
  import opened ConnectorTypes
  import opened ConnectorStore
  import opened ConnectorWrites
  import opened PairingSpec
  import opened CredentialSpec
  import opened ConnectorRuns
  import ClaimLimits
  import UserCodes

  /** Who pairs: an account, the connector's and the device's identity, and the code as shown. */
  datatype Cast = Cast(userID: UserId, connector: PublicIdentity, device: PublicIdentity, code: string) {
    predicate Plausible() {
      && userID != "" && ValidKeyID(connector.keyID) && ValidKeyID(device.keyID)
      && |UserCodes.Normalize(code)| == 8 && UserCodes.Normalize(UserCodes.Normalize(code)) == UserCodes.Normalize(code)
    }
  }

  function Calls(k: Cast): seq<Call> {
    [ IssueChallengeCall(PURPOSE_CONNECTOR, None),
      BeginPairingCall(k.connector, true, Issued(Bare, 0), k.code),
      IssueChallengeCall(PURPOSE_DEVICE, Some(k.userID)),
      ClaimPairingCall(k.userID, k.code, k.device, true, Issued(Bare, 2)),
      ApprovePairingCall(1, Issued(Orp, 1), k.device.keyID),
      ConfirmPairingCall(k.userID, 1, 3),
      IssueBrowserTicketCall(k.userID, "session", 3, DeviceCredential(5), None),
      IssueConnectorTicketCall(ConnectorCredential(Issued(Orp, 1))),
      ConsumeRelayTicketCall(Issued(Ort, 6)),
      ConsumeRelayTicketCall(Issued(Ort, 7))
    ]
  }

  /** All calls at time zero, with the account in order. */
  function EventOf(k: Cast, i: nat): Event
    requires i < 10
  {
    Event(Calls(k)[i], 0, Granted, Granted)
  }

  function Events(k: Cast): (events: seq<Event>)
    ensures |events| == 10
    ensures forall i :: 0 <= i < 10 ==> events[i] == EventOf(k, i)
  {
    seq(10, i requires 0 <= i < 10 => EventOf(k, i))
  }

  function Open(c: Config, purpose: string, userID: Option<UserId>): Challenge { Challenge(purpose, userID, 0, c.challengeLifetime, None) }

  function Used(c: Config): Challenge { Open(c, PURPOSE_CONNECTOR, None).(usedAt := Some(0)) }

  function Begun1(c: Config, k: Cast): Store {
    EMPTY_STORE.(challenges := map[Sha256(Issued(Bare, 0)) := Used(c)], pairings := map[1 := NewPairing(c, 1, k.connector, k.code, 0)], next := 2)
  }

  lemma Beginning(c: Config, k: Cast)
    requires k.Plausible()
    ensures BeginPairing(c, IssueChallenge(c, EMPTY_STORE, PURPOSE_CONNECTOR, None, 0).0, k.connector, true, Issued(Bare, 0), k.code, 0).0 == Begun1(c, k)
  {
    var s := IssueChallenge(c, EMPTY_STORE, PURPOSE_CONNECTOR, None, 0).0;
    assert ExpirePairingsForKey(s.pairings, k.connector.keyID, 0) == map[];
  }

  function Awaiting(c: Config, k: Cast): Store {
    var s := Begun1(c, k);
    s.(challenges := s.challenges[Sha256(Issued(Bare, 2)) := Open(c, PURPOSE_DEVICE, Some(k.userID))], next := 3)
  }

  function ClaimedStore(c: Config, k: Cast): Store {
    var s := Awaiting(c, k);
    var p := s.pairings[1].(state := Verification, userID := Some(k.userID), deviceID := Some(3));
    s.(challenges := s.challenges[Sha256(Issued(Bare, 2)) := Open(c, PURPOSE_DEVICE, Some(k.userID)).(usedAt := Some(0))],
       devices := map[3 := Subject(k.userID, k.device, NO_CREDENTIAL, 0, None, None)], pairings := s.pairings[1 := p], next := 4)
  }

  lemma NothingFailed(userID: UserId)
    ensures ClaimLimits.CheckClaimFailures(map[], userID, 0).Admitted?
  {
    assert ClaimLimits.AccountSince(map[], userID, 0 - ClaimLimits.HOUR) == {};
    assert ClaimLimits.GlobalSince(map[], 0 - ClaimLimits.MINUTE) == {};
  }

  lemma Claiming(c: Config, k: Cast)
    requires k.Plausible()
    ensures ClaimPairing(Awaiting(c, k), k.userID, k.code, k.device, true, Issued(Bare, 2), 0, Granted).0 == ClaimedStore(c, k)
  {
    NothingFailed(k.userID);
    var s := Awaiting(c, k);
    var used := UseChallenge(s, Issued(Bare, 2), 0);
    assert used.pairings[1].userCodeHash == UserCodes.Normalize(k.code);
    assert PairingByCode(used, UserCodes.Normalize(k.code)) == Some(1);
    assert ByKeyID(used.devices, k.device.keyID) == None;
  }

  function ApprovedStore(c: Config, k: Cast): Store {
    var s := ClaimedStore(c, k);
    s.(pairings := s.pairings[1 := s.pairings[1].(connectorReviewedAt := Some(0))])
  }

  lemma Approving(c: Config, k: Cast)
    requires k.Plausible()
    ensures ApprovePairing(ClaimedStore(c, k), 1, Issued(Orp, 1), k.device.keyID, 0).0 == ApprovedStore(c, k)
  {
    var s := ClaimedStore(c, k);
    assert s.pairings[1].secretHash == Sha256(Issued(Orp, 1));
    assert PairingBySecret(s, Sha256(Issued(Orp, 1))) == Some(1);
  }

  function PairedStore(c: Config, k: Cast): Store {
    var s := ApprovedStore(c, k);
    var p := s.pairings[1].(deviceCredentialSeed := Some(5), state := Completed, connectorID := Some(4), confirmedAt := Some(0),
                            completedAt := Some(0));
    var device := Slots(Some(Sha256(DeviceCredential(5))), Some(c.deviceLifetime), None, None);
    var connector := Slots(Some(Sha256(ConnectorCredential(Issued(Orp, 1)))), Some(c.connectorLifetime), None, None);
    s.(devices := map[3 := Subject(k.userID, k.device, device, 0, Some(0), None)],
       connectors := map[4 := Subject(k.userID, k.connector, connector, 0, None, None)],
       trust := map[TrustKey(k.userID, 3, 4) := Trust(0, None)], pairings := s.pairings[1 := p], next := 6)
  }

  lemma Confirming(c: Config, k: Cast)
    requires k.Plausible()
    ensures ConfirmPairing(c, ApprovedStore(c, k), k.userID, 1, 3, 0, Granted)
      == (PairedStore(c, k), PairingConfirmed(3, 4, DeviceCredential(5), c.deviceLifetime))
  {
    var s, t := ApprovedStore(c, k), ConfirmPairing(c, ApprovedStore(c, k), k.userID, 1, 3, 0, Granted).0;
    assert ByKeyID(s.connectors, k.connector.keyID) == None;
    assert t.devices == PairedStore(c, k).devices;
    assert t.connectors == PairedStore(c, k).connectors;
    assert t.trust == PairedStore(c, k).trust;
    assert t.pairings == PairedStore(c, k).pairings;
  }

  function DeviceTicket(c: Config, k: Cast): Ticket {
    Ticket(k.userID, Client, 3, k.device.keyID, Some("session"), c.deviceLifetime, 0, c.ticketLifetime, None)
  }

  function ConnectorTicket(c: Config, k: Cast): Ticket {
    Ticket(k.userID, Connector, 4, k.connector.keyID, None, c.connectorLifetime, 0, c.ticketLifetime, None)
  }

  /** Paired, with these tickets. */
  function Ticketed(c: Config, k: Cast, tickets: map<Digest, Ticket>, next: nat): Store {
    PairedStore(c, k).(tickets := tickets, next := next)
  }

  function OneTicket(c: Config, k: Cast): Store { Ticketed(c, k, map[Sha256(Issued(Ort, 6)) := DeviceTicket(c, k)], 7) }

  function TwoTickets(c: Config, k: Cast): Store {
    Ticketed(c, k, map[Sha256(Issued(Ort, 6)) := DeviceTicket(c, k), Sha256(Issued(Ort, 7)) := ConnectorTicket(c, k)], 8)
  }

  function OneUsed(c: Config, k: Cast): Store {
    var used := DeviceTicket(c, k).(consumedAt := Some(0));
    Ticketed(c, k, map[Sha256(Issued(Ort, 6)) := used, Sha256(Issued(Ort, 7)) := ConnectorTicket(c, k)], 8)
  }

  lemma Ticketing(c: Config, k: Cast)
    requires k.Plausible()
    ensures IssueBrowserTicket(c, PairedStore(c, k), k.userID, "session", 3, DeviceCredential(5), None, 0, Granted, Granted).0 == OneTicket(c, k)
  {
    var s := PairedStore(c, k);
    assert s.devices[3].slots.live == Some(Sha256(DeviceCredential(5)));
    assert ByCredential(s.devices, Sha256(DeviceCredential(5))) == Some(3);
    assert s.devices[3 := s.devices[3]] == s.devices;
  }

  lemma ConnectorTicketing(c: Config, k: Cast)
    requires k.Plausible()
    ensures IssueConnectorTicket(c, OneTicket(c, k), ConnectorCredential(Issued(Orp, 1)), 0, Granted).0 == TwoTickets(c, k)
  {
    var s := OneTicket(c, k);
    var credential := ConnectorCredential(Issued(Orp, 1));
    assert s.connectors[4].slots.live == Some(Sha256(credential));
    assert ByCredential(s.connectors, Sha256(credential)) == Some(4);
    assert s.connectors[4 := s.connectors[4]] == s.connectors;
  }

  lemma Trusting(c: Config, k: Cast, s: Store)
    requires s.trust == map[TrustKey(k.userID, 3, 4) := Trust(0, None)]
    requires s.devices == PairedStore(c, k).devices && s.connectors == PairedStore(c, k).connectors
    ensures TrustedIdentities(s, k.userID, Client, 3) == {k.connector}
    ensures TrustedIdentities(s, k.userID, Connector, 4) == {k.device}
  {
    assert TrustKey(k.userID, 3, 4) in s.trust;
  }

  lemma Consumed(s: Store, draw: nat, t: Ticket)
    requires Sha256(Issued(Ort, draw)) in s.tickets && s.tickets[Sha256(Issued(Ort, draw))] == t
    requires t.consumedAt.None? && 0 < t.expiresAt && 0 < t.authorizationExpiresAt
    requires SubjectStands(RowsOf(s, t.role), t.role, t.subjectID, t.userID, t.subjectKeyID)
    ensures ConsumeRelayTicket(s, Issued(Ort, draw), 0, Granted, Granted)
      == (s.(tickets := s.tickets[Sha256(Issued(Ort, draw)) := t.(consumedAt := Some(0))]),
          Reply.Admitted(Admission(t.userID, t.role, t.subjectID, if t.role.Client? then t.sessionID else None,
                                   RowsOf(s, t.role)[t.subjectID].identity, TrustedIdentities(s, t.userID, t.role, t.subjectID),
                                   Earlier(t.authorizationExpiresAt, AUTHORIZATION_LEASE))))
  {
    hide TrustedIdentities, SubjectStands;
  }

  lemma Consuming(c: Config, k: Cast)
    requires k.Plausible()
    ensures ConsumeRelayTicket(TwoTickets(c, k), Issued(Ort, 6), 0, Granted, Granted)
      == (OneUsed(c, k), Reply.Admitted(Admission(k.userID, Client, 3, Some("session"), k.device, {k.connector},
                                                  Earlier(c.deviceLifetime, AUTHORIZATION_LEASE))))
  {
    hide TrustedIdentities, ConsumeRelayTicket;
    Trusting(c, k, TwoTickets(c, k));
    Consumed(TwoTickets(c, k), 6, DeviceTicket(c, k));
    assert TwoTickets(c, k).tickets[Sha256(Issued(Ort, 6)) := DeviceTicket(c, k).(consumedAt := Some(0))] == OneUsed(c, k).tickets;
  }

  lemma ConsumingOther(c: Config, k: Cast)
    requires k.Plausible()
    ensures ConsumeRelayTicket(OneUsed(c, k), Issued(Ort, 7), 0, Granted, Granted).1
      == Reply.Admitted(Admission(k.userID, Connector, 4, None, k.connector, {k.device}, Earlier(c.connectorLifetime, AUTHORIZATION_LEASE)))
  {
    hide TrustedIdentities, ConsumeRelayTicket;
    Trusting(c, k, OneUsed(c, k));
    Consumed(OneUsed(c, k), 7, ConnectorTicket(c, k));
  }

  // ---------------------------------------------------------------- the run

  lemma Chain(c: Config, k: Cast, i: nat, s: Store)
    requires i < 10 && StateAt(c, Events(k), i) == s
    ensures StateAt(c, Events(k), i + 1) == Step(c, s, EventOf(k, i)).0
    ensures ReplyAt(c, Events(k), i) == Step(c, s, EventOf(k, i)).1
  {
    hide Step, Calls;
  }

  lemma ConnectorChallengeStep(c: Config, k: Cast)
    ensures Step(c, EMPTY_STORE, EventOf(k, 0)) == IssueChallenge(c, EMPTY_STORE, PURPOSE_CONNECTOR, None, 0)
  {
    hide IssueChallenge;
  }

  lemma BeginStep(c: Config, k: Cast, s: Store)
    ensures Step(c, s, EventOf(k, 1)) == BeginPairing(c, s, k.connector, true, Issued(Bare, 0), k.code, 0)
  {
    hide BeginPairing;
  }

  lemma DeviceChallengeStep(c: Config, k: Cast, s: Store)
    ensures Step(c, s, EventOf(k, 2)) == IssueChallenge(c, s, PURPOSE_DEVICE, Some(k.userID), 0)
  {
    hide IssueChallenge;
  }

  lemma ClaimStep(c: Config, k: Cast, s: Store)
    ensures Step(c, s, EventOf(k, 3)) == ClaimPairing(s, k.userID, k.code, k.device, true, Issued(Bare, 2), 0, Granted)
  {
    hide ClaimPairing;
  }

  lemma ApproveStep(c: Config, k: Cast, s: Store)
    ensures Step(c, s, EventOf(k, 4)) == ApprovePairing(s, 1, Issued(Orp, 1), k.device.keyID, 0)
  {
    hide ApprovePairing;
  }

  lemma ConfirmStep(c: Config, k: Cast, s: Store)
    ensures Step(c, s, EventOf(k, 5)) == ConfirmPairing(c, s, k.userID, 1, 3, 0, Granted)
  {
    hide ConfirmPairing;
  }

  lemma DeviceTicketStep(c: Config, k: Cast, s: Store)
    ensures Step(c, s, EventOf(k, 6))
      == IssueBrowserTicket(c, s, k.userID, "session", 3, DeviceCredential(5), None, 0, Granted, Granted)
  {
    hide IssueBrowserTicket;
  }

  lemma ConnectorTicketStep(c: Config, k: Cast, s: Store)
    ensures Step(c, s, EventOf(k, 7)) == IssueConnectorTicket(c, s, ConnectorCredential(Issued(Orp, 1)), 0, Granted)
  {
    hide IssueConnectorTicket;
  }

  lemma ConsumeStep(c: Config, k: Cast, s: Store)
    ensures Step(c, s, EventOf(k, 8)) == ConsumeRelayTicket(s, Issued(Ort, 6), 0, Granted, Granted)
    ensures Step(c, s, EventOf(k, 9)) == ConsumeRelayTicket(s, Issued(Ort, 7), 0, Granted, Granted)
  {
    hide ConsumeRelayTicket;
  }

  lemma Challenging(c: Config, k: Cast)
    requires k.Plausible()
    ensures IssueChallenge(c, Begun1(c, k), PURPOSE_DEVICE, Some(k.userID), 0).0 == Awaiting(c, k)
  {
  }

  /** The six calls complete the pairing: consent on both sides is not only necessary but enough. */
  lemma PairingCompletes(c: Config, k: Cast)
    requires k.Plausible()
    ensures ReplyAt(c, Events(k), 5) == PairingConfirmed(3, 4, DeviceCredential(5), c.deviceLifetime)
    ensures StateAt(c, Events(k), 6) == PairedStore(c, k)
  {
    assert StateAt(c, Events(k), 0) == EMPTY_STORE;
    hide StateAt, ReplyAt, Step, Events, EventOf, Calls, IssueChallenge, BeginPairing, ClaimPairing, ApprovePairing, ConfirmPairing,
      Begun1, Awaiting, ClaimedStore, ApprovedStore, PairedStore, Cast.Plausible;
    ConnectorChallengeStep(c, k);
    Chain(c, k, 0, EMPTY_STORE);
    Beginning(c, k);
    BeginStep(c, k, StateAt(c, Events(k), 1));
    Chain(c, k, 1, StateAt(c, Events(k), 1));
    Challenging(c, k);
    DeviceChallengeStep(c, k, Begun1(c, k));
    Chain(c, k, 2, Begun1(c, k));
    Claiming(c, k);
    ClaimStep(c, k, Awaiting(c, k));
    Chain(c, k, 3, Awaiting(c, k));
    Approving(c, k);
    ApproveStep(c, k, ClaimedStore(c, k));
    Chain(c, k, 4, ClaimedStore(c, k));
    Confirming(c, k);
    ConfirmStep(c, k, ApprovedStore(c, k));
    Chain(c, k, 5, ApprovedStore(c, k));
  }

  /** And the pair can meet: with a ticket each, both sides are admitted, each with exactly the
      other's identity in its snapshot. */
  lemma PairMeets(c: Config, k: Cast)
    requires k.Plausible()
    ensures ReplyAt(c, Events(k), 8)
      == Reply.Admitted(Admission(k.userID, Client, 3, Some("session"), k.device, {k.connector},
                                  Earlier(c.deviceLifetime, AUTHORIZATION_LEASE)))
    ensures ReplyAt(c, Events(k), 9)
      == Reply.Admitted(Admission(k.userID, Connector, 4, None, k.connector, {k.device}, Earlier(c.connectorLifetime, AUTHORIZATION_LEASE)))
  {
    hide StateAt, ReplyAt, Step, Events, EventOf, Calls, IssueBrowserTicket, IssueConnectorTicket, ConsumeRelayTicket, PairedStore,
      OneTicket, TwoTickets, OneUsed, Cast.Plausible;
    PairingCompletes(c, k);
    Ticketing(c, k);
    DeviceTicketStep(c, k, PairedStore(c, k));
    Chain(c, k, 6, PairedStore(c, k));
    ConnectorTicketing(c, k);
    ConnectorTicketStep(c, k, OneTicket(c, k));
    Chain(c, k, 7, OneTicket(c, k));
    Consuming(c, k);
    ConsumeStep(c, k, TwoTickets(c, k));
    Chain(c, k, 8, TwoTickets(c, k));
    ConsumingOther(c, k);
    ConsumeStep(c, k, OneUsed(c, k));
    Chain(c, k, 9, OneUsed(c, k));
  }
}
