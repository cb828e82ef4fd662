/** Trust over whole runs: who trusts whom follows from the confirmations and revocations alone, and
    an admission's snapshot from who trusts whom. */
module TrustRuns {
  import opened ConnectorTypes
  import opened ConnectorStore
  import opened ConnectorWrites
  import opened PairingSpec
  import opened CredentialSpec
  import opened ConnectorRuns
  import opened PairingHistory
  import opened CredentialRuns
  import opened ConfirmationRuns
  import opened RevocationRuns
  import opened TicketRuns

  // ---------------------------------------------------------------- what one call does to trust

  /** A first confirmation writes unrevoked trust between the two rows it names; a repeat writes
      nothing. */
  lemma ConfirmTrusts(c: Config, s: Store, userID: UserId, id: nat, d: nat, now: Time, account: Auth)
    requires Inv(c, s)
    ensures var (t, reply) := ConfirmPairing(c, s, userID, id, d, now, account);
      if reply.PairingConfirmed? && id in s.pairings && s.pairings[id].confirmedAt.None?
      then reply.deviceID == d && t.trust == s.trust[TrustKey(userID, d, reply.connectorID) := Trust(now, None)]
      else t.trust == s.trust
  {
    hide Inv, ConfirmAgain, ConnectorFor;
    if id in s.pairings { ConfirmedByState(c, s, id); }
  }

  lemma ConfirmedByState(c: Config, s: Store, id: nat)
    requires Inv(c, s) && id in s.pairings
    ensures s.pairings[id].state.Verification? ==> s.pairings[id].confirmedAt.None?
    ensures s.pairings[id].state.Completed? ==> s.pairings[id].confirmedAt.Some?
  {
    hide RowsOk, CodesUnique, OneActivePerKey, TrustOk, TokensOk, SeedOk;
    assert PairingOk(s, id, s.pairings[id]);
  }

  lemma OthersKeepTrust(c: Config, s: Store, e: Event)
    requires !e.call.ConfirmPairingCall? && !e.call.RevokeAccountDeviceCall?
    ensures Step(c, s, e).0.trust == s.trust
  {
    hide DeviceStep, ConnectorStep, TokenStep, BeginPairing, ClaimPairing, PollPairing, ApprovePairing, CancelPairing;
    if DeviceCall(e.call) {
      DeviceStepTrust(c, s, e);
    } else if ConnectorCall(e.call) {
      ConnectorStepTrust(c, s, e);
    } else if !PairingCall(e.call) {
      TokenStepTrust(c, s, e);
    }
  }

  lemma DeviceStepTrust(c: Config, s: Store, e: Event)
    requires DeviceCall(e.call) && !e.call.RevokeAccountDeviceCall?
    ensures DeviceStep(c, s, e).0.trust == s.trust
  {
    hide RotateDevice, ActivateDevice, IssueBrowserTicket;
  }

  lemma ConnectorStepTrust(c: Config, s: Store, e: Event)
    requires ConnectorCall(e.call)
    ensures ConnectorStep(c, s, e).0.trust == s.trust
  {
    hide RotateConnector, ActivateConnector, RevokeConnector, RevokeAccountConnector, IssueConnectorTicket;
  }

  lemma TokenStepTrust(c: Config, s: Store, e: Event)
    requires !PairingCall(e.call) && !DeviceCall(e.call) && !ConnectorCall(e.call)
    ensures TokenStep(c, s, e).0.trust == s.trust
  {
    hide IssueChallenge, ConsumeRelayTicket, ValidateAdmission;
  }

  /** A revocation ends the trust of its device and of no other. */
  lemma RevokeTrusts(s: Store, userID: UserId, d: nat, now: Time, account: Auth, key: TrustKey)
    requires TrustOk(s)
    ensures var t := RevokeAccountDevice(s, userID, d, now, account).0;
      && (key in t.trust <==> key in s.trust)
      && (key in s.trust && s.trust[key].revokedAt.None? && t.trust[key] != s.trust[key] ==>
           key.deviceID == d && d in t.devices && t.devices[d].revokedAt.Some?)
      && (key in s.trust && s.trust[key].revokedAt.Some? ==> t.trust[key] == s.trust[key])
  {
  }

  // ---------------------------------------------------------------- along a run

  /** Event `i` confirmed a pairing of this account between this device and this connector. */
  ghost predicate Confirmed(c: Config, events: seq<Event>, i: nat, userID: UserId, d: nat, k: nat) {
    && i < |events| && events[i].call.ConfirmPairingCall? && events[i].call.userID == userID
    && ReplyAt(c, events, i).PairingConfirmed? && ReplyAt(c, events, i).deviceID == d && ReplyAt(c, events, i).connectorID == k
  }

  ghost predicate ConfirmedBefore(c: Config, events: seq<Event>, n: nat, userID: UserId, d: nat, k: nat) {
    exists i :: 0 <= i < n && Confirmed(c, events, i, userID, d, k)
  }

  ghost predicate Standing(rows: Subjects, i: nat) { i in rows && rows[i].revokedAt.None? }

  ghost predicate First(c: Config, events: seq<Event>, i: nat)
    requires i < |events| && events[i].call.ConfirmPairingCall?
  {
    var s, id := StateAt(c, events, i), events[i].call.pairingID; id in s.pairings && s.pairings[id].confirmedAt.None?
  }

  lemma FirstTrusts(c: Config, events: seq<Event>, i: nat, userID: UserId, d: nat, k: nat)
    requires Confirmed(c, events, i, userID, d, k) && First(c, events, i)
    ensures Trusting(StateAt(c, events, i + 1), userID, d, k)
  {
    var s, e := StateAt(c, events, i), events[i];
    hide Step, Inv, ConfirmPairing;
    StateIsOk(c, events, i);
    ConfirmCall(c, s, e);
    ConfirmTrusts(c, s, e.call.userID, e.call.pairingID, e.call.deviceID, e.now, e.account);
  }

  /** What one call may do to the trust between two rows: give it by confirming them, end it with
      the device. */
  ghost predicate TrustEdge(s: Store, t: Store, e: Event, reply: Reply, userID: UserId, d: nat, k: nat) {
    && (Trusting(s, userID, d, k) ==> Trusting(t, userID, d, k) || !Standing(t.devices, d))
    && (Trusting(t, userID, d, k) ==>
         || Trusting(s, userID, d, k)
         || (e.call.ConfirmPairingCall? && e.call.userID == userID && reply.PairingConfirmed? && reply.deviceID == d && reply.connectorID == k))
  }

  lemma ConfirmTrustEdge(c: Config, s: Store, e: Event, userID: UserId, d: nat, k: nat)
    requires Inv(c, s) && e.call.ConfirmPairingCall?
    ensures var (t, reply) := Step(c, s, e); TrustEdge(s, t, e, reply, userID, d, k)
  {
    hide Step, Inv, ConfirmPairing;
    ConfirmCall(c, s, e);
    ConfirmTrusts(c, s, e.call.userID, e.call.pairingID, e.call.deviceID, e.now, e.account);
  }

  lemma RevokeTrustEdge(c: Config, s: Store, e: Event, userID: UserId, d: nat, k: nat)
    requires TrustOk(s) && e.call.RevokeAccountDeviceCall?
    ensures var (t, reply) := Step(c, s, e); TrustEdge(s, t, e, reply, userID, d, k)
  {
    hide Step, TrustOk, RevokeAccountDevice;
    DeviceCalls(c, s, e);
    RevokeTrusts(s, e.call.userID, e.call.deviceID, e.now, e.account, TrustKey(userID, d, k));
  }

  /** Trust once given ends only with the device. */
  lemma TrustStep(c: Config, events: seq<Event>, i: nat, userID: UserId, d: nat, k: nat)
    requires i < |events|
    ensures TrustEdge(StateAt(c, events, i), StateAt(c, events, i + 1), events[i], ReplyAt(c, events, i), userID, d, k)
  {
    var s, e := StateAt(c, events, i), events[i];
    StateIsOk(c, events, i);
    hide Step, Inv, TrustOk;
    TrustIsOk(c, s);
    if e.call.ConfirmPairingCall? {
      hide TrustEdge;
      ConfirmTrustEdge(c, s, e, userID, d, k);
    } else if e.call.RevokeAccountDeviceCall? {
      hide TrustEdge;
      RevokeTrustEdge(c, s, e, userID, d, k);
    } else {
      OthersKeepTrust(c, s, e);
    }
  }

  lemma TrustIsOk(c: Config, s: Store)
    requires Inv(c, s)
    ensures TrustOk(s)
  {
    hide RowsOk, PairingsOk, CodesUnique, OneActivePerKey, TrustOk, TokensOk;
  }

  lemma {:induction false} TrustLasts(c: Config, events: seq<Event>, i: nat, n: nat, userID: UserId, d: nat, k: nat)
    requires i <= n <= |events| && Trusting(StateAt(c, events, i), userID, d, k)
    ensures Trusting(StateAt(c, events, n), userID, d, k) || !Standing(StateAt(c, events, n).devices, d)
    decreases n
  {
    hide StateAt, Trusting, Confirmed, Standing;
    TrustedStands(c, events, i, userID, d, k);
    if i < n {
      TrustLasts(c, events, i, n - 1, userID, d, k);
      TrustStep(c, events, n - 1, userID, d, k);
      if !Standing(StateAt(c, events, n - 1).devices, d) { FallenStays(c, events, i, n - 1, d); }
    }
  }

  lemma FallenStays(c: Config, events: seq<Event>, i: nat, n: nat, d: nat)
    requires i <= n < |events| && Standing(StateAt(c, events, i).devices, d) && !Standing(StateAt(c, events, n).devices, d)
    ensures !Standing(StateAt(c, events, n + 1).devices, d)
  {
    hide StateAt, SlotsLater;
    RowForward(c, events, i, n, Client, d);
    RowForward(c, events, n, n + 1, Client, d);
  }

  lemma TrustedStands(c: Config, events: seq<Event>, n: nat, userID: UserId, d: nat, k: nat)
    requires n <= |events| && Trusting(StateAt(c, events, n), userID, d, k)
    ensures Standing(StateAt(c, events, n).devices, d) && k in StateAt(c, events, n).connectors
  {
    hide StateAt, RowsOk, PairingsOk, CodesUnique, OneActivePerKey, TokensOk;
    StateIsOk(c, events, n);
  }

  /** Behind every confirmation is a first one, with the same answer. */
  lemma FirstConfirmation(c: Config, events: seq<Event>, i: nat, userID: UserId, d: nat, k: nat) returns (f: nat)
    requires Confirmed(c, events, i, userID, d, k)
    ensures f <= i && Confirmed(c, events, f, userID, d, k) && First(c, events, f)
  {
    var id := events[i].call.pairingID;
    f := i;
    ConfirmedIsKnown(c, events, i, id);
    hide StateAt, ReplyAt, Step, WasConfirmed;
    if !First(c, events, i) {
      f := ConfirmationExplained(c, events, i, id);
      FromEarlier(c, events, f, i, id, userID, d, k);
    }
  }

  lemma ConfirmedIsKnown(c: Config, events: seq<Event>, i: nat, id: nat)
    requires ConfirmedAtEvent(c, events, i, id)
    ensures id in StateAt(c, events, i).pairings && StateAt(c, events, i).pairings[id].userID == Some(events[i].call.userID)
  {
    hide ConfirmAgain, ConnectorFor, DeviceStep, ConnectorStep, TokenStep, Complete;
  }

  lemma FromEarlier(c: Config, events: seq<Event>, f: nat, i: nat, id: nat, userID: UserId, d: nat, k: nat)
    requires Confirmed(c, events, i, userID, d, k) && events[i].call.pairingID == id && f < i
    requires id in StateAt(c, events, i).pairings && StateAt(c, events, i).pairings[id].userID == Some(userID)
    requires WasConfirmed(c, events[f], ReplyAt(c, events, f), id, PairingAt(c, events, i, id))
    ensures Confirmed(c, events, f, userID, d, k)
  {
    hide StateAt, ReplyAt;
    ConfirmationsAgree(c, events, f, i, id);
  }

  lemma {:induction false} TrustComesFrom(c: Config, events: seq<Event>, n: nat, userID: UserId, d: nat, k: nat)
    requires n <= |events| && Trusting(StateAt(c, events, n), userID, d, k)
    ensures ConfirmedBefore(c, events, n, userID, d, k)
  {
    hide Step;
    if n > 0 {
      TrustStep(c, events, n - 1, userID, d, k);
      if Trusting(StateAt(c, events, n - 1), userID, d, k) {
        TrustComesFrom(c, events, n - 1, userID, d, k);
      } else {
        assert Confirmed(c, events, n - 1, userID, d, k);
      }
    }
  }

  /** A device and a connector trust each other exactly from the confirmation of a pairing between
      them until the device is revoked. */
  lemma TrustIff(c: Config, events: seq<Event>, n: nat, userID: UserId, d: nat, k: nat)
    requires n <= |events|
    ensures Trusting(StateAt(c, events, n), userID, d, k) <==>
      ConfirmedBefore(c, events, n, userID, d, k) && Standing(StateAt(c, events, n).devices, d)
  {
    hide StateAt, Confirmed, Standing, Trusting;
    if Trusting(StateAt(c, events, n), userID, d, k) {
      TrustComesFrom(c, events, n, userID, d, k);
      TrustedStands(c, events, n, userID, d, k);
    }
    if ConfirmedBefore(c, events, n, userID, d, k) {
      var i :| 0 <= i < n && Confirmed(c, events, i, userID, d, k);
      var f := FirstConfirmation(c, events, i, userID, d, k);
      FirstTrusts(c, events, f, userID, d, k);
      TrustLasts(c, events, f + 1, n, userID, d, k);
    }
  }

  // ---------------------------------------------------------------- snapshots

  /** The other side's row behind an identity in a snapshot. */
  ghost predicate Paired(c: Config, events: seq<Event>, n: nat, a: Admission, other: nat)
    requires n <= |events|
  {
    if a.role.Client? then ConfirmedBefore(c, events, n, a.userID, a.subjectID, other)
    else ConfirmedBefore(c, events, n, a.userID, other, a.subjectID)
  }

  ghost predicate Sees(c: Config, events: seq<Event>, n: nat, a: Admission, other: nat)
    requires n <= |events|
  {
    var rows := RowsOf(StateAt(c, events, n), if a.role.Client? then Connector else Client);
    Standing(rows, other) && rows[other].userID == a.userID && Paired(c, events, n, a, other)
  }

  /** An admitted side is shown exactly the unrevoked rows of the other side that a confirmed pairing
      of its account joined it to. */
  lemma SnapshotIsExact(c: Config, events: seq<Event>, j: nat, a: Admission, x: PublicIdentity)
    requires AdmittedAt(c, events, j, a)
    ensures x in a.trustedIdentities <==>
      exists other :: Sees(c, events, j, a, other)
        && RowsOf(StateAt(c, events, j), if a.role.Client? then Connector else Client)[other].identity == x
  {
    hide StateAt, ReplyAt, ConfirmedBefore, TrustedIdentities, SubjectStands;
    AdmissionAt(c, events, j, a);
    var s := StateAt(c, events, j);
    SubjectIsStanding(s, a);
    SnapshotRows(s, a, x);
    forall other ensures SeesTrusting(s, a, other) <==> Sees(c, events, j, a, other) {
      if a.role.Client? { TrustIff(c, events, j, a.userID, a.subjectID, other); } else { TrustIff(c, events, j, a.userID, other, a.subjectID); }
    }
  }

  lemma SubjectIsStanding(s: Store, a: Admission)
    requires SubjectStands(RowsOf(s, a.role), a.role, a.subjectID, a.userID, a.identity.keyID)
    ensures Standing(RowsOf(s, a.role), a.subjectID)
  {
  }

  ghost predicate SeesTrusting(s: Store, a: Admission, other: nat) {
    var rows := RowsOf(s, if a.role.Client? then Connector else Client);
    && Standing(rows, other) && rows[other].userID == a.userID
    && if a.role.Client? then Trusting(s, a.userID, a.subjectID, other) else Trusting(s, a.userID, other, a.subjectID)
  }

  lemma SnapshotRows(s: Store, a: Admission, x: PublicIdentity)
    ensures x in TrustedIdentities(s, a.userID, a.role, a.subjectID) <==>
      exists other :: SeesTrusting(s, a, other) && RowsOf(s, if a.role.Client? then Connector else Client)[other].identity == x
  {
    if x in TrustedIdentities(s, a.userID, a.role, a.subjectID) {
      if a.role.Client? {
        var key :| key in s.trust && key.userID == a.userID && key.deviceID == a.subjectID && s.trust[key].revokedAt.None?
          && key.connectorID in s.connectors && s.connectors[key.connectorID].userID == a.userID
          && s.connectors[key.connectorID].revokedAt.None? && s.connectors[key.connectorID].identity == x;
        assert key == TrustKey(a.userID, a.subjectID, key.connectorID);
        assert SeesTrusting(s, a, key.connectorID);
      } else {
        var key :| key in s.trust && key.userID == a.userID && key.connectorID == a.subjectID && s.trust[key].revokedAt.None?
          && key.deviceID in s.devices && s.devices[key.deviceID].userID == a.userID
          && s.devices[key.deviceID].revokedAt.None? && s.devices[key.deviceID].identity == x;
        assert key == TrustKey(a.userID, key.deviceID, a.subjectID);
        assert SeesTrusting(s, a, key.deviceID);
      }
    }
    if other :| SeesTrusting(s, a, other) && RowsOf(s, if a.role.Client? then Connector else Client)[other].identity == x {
      assert (if a.role.Client? then TrustKey(a.userID, a.subjectID, other) else TrustKey(a.userID, other, a.subjectID)) in s.trust;
    }
  }
}
