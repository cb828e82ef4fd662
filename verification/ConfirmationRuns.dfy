/** Repeated confirmations of one pairing, and the safety code both sides compare. */
module ConfirmationRuns {
  import opened ConnectorTypes
  import opened ConnectorStore
  import opened ConnectorWrites
  import opened PairingSpec
  import opened PairingProofs
  import opened CredentialSpec
  import opened ConnectorRuns
  import opened PairingHistory
  import opened CredentialHistory
  import opened CredentialRuns
  import opened RevocationRuns
  import UserCodes

  /** What a successful confirmation says, read off the rows after it: the pairing's own device,
      connector and seed, one lifetime from the first confirmation; and both credentials live. */
  predicate Settled(c: Config, t: Store, id: nat, reply: Reply) {
    && id in t.pairings && reply.PairingConfirmed?
    && var p := t.pairings[id];
    && p.confirmedAt.Some? && p.deviceID == Some(reply.deviceID) && p.connectorID == Some(reply.connectorID)
    && p.deviceCredentialSeed.Some? && reply.credential == DeviceCredential(p.deviceCredentialSeed.value)
    && reply.expiresAt == p.confirmedAt.value + c.deviceLifetime
    && reply.deviceID in t.devices && t.devices[reply.deviceID].slots.live == Some(Sha256(reply.credential))
    && reply.connectorID in t.connectors && t.connectors[reply.connectorID].slots.live == p.connectorCredentialHash
  }

  lemma RetrySettled(c: Config, s: Store, id: nat, userID: UserId, d: nat)
    requires Inv(c, s) && id in s.pairings && d in s.devices && s.devices[d].slots.expiresAt.Some?
    requires s.pairings[id].state.Completed? && s.pairings[id].connectorID.Some? && s.pairings[id].deviceID == Some(d)
    requires ConfirmAgain(s, s.pairings[id], userID, d).PairingConfirmed?
    ensures Settled(c, s, id, ConfirmAgain(s, s.pairings[id], userID, d))
  {
    assert PairingOk(s, id, s.pairings[id]) && SeedOk(c, s.devices, s.pairings[id]);
    hide Inv, PairingOk;
  }

  lemma CompleteSettled(c: Config, s: Store, id: nat, userID: UserId, d: nat, k: nat, now: Time)
    requires id in s.pairings && d in s.devices && k in s.connectors && s.pairings[id].deviceID == Some(d)
    ensures Settled(c, Complete(c, s, id, userID, d, k, now), id,
                    PairingConfirmed(d, k, DeviceCredential(s.next), now + c.deviceLifetime))
  {
  }

  lemma ConfirmSettled(c: Config, s: Store, userID: UserId, id: nat, d: nat, now: Time, account: Auth)
    requires Inv(c, s)
    ensures var (t, reply) := ConfirmPairing(c, s, userID, id, d, now, account); reply.PairingConfirmed? ==> Settled(c, t, id, reply)
  {
    hide Inv, Settled, Complete, ConfirmAgain, ConnectorFor;
    var (t, reply) := ConfirmPairing(c, s, userID, id, d, now, account);
    if reply.PairingConfirmed? {
      var p := s.pairings[id];
      if p.state.Completed? && p.connectorID.Some? && s.devices[d].slots.expiresAt.Some? {
        RetrySettled(c, s, id, userID, d);
      } else {
        var (m, k) := ConnectorFor(s, userID, p.connectorIdentity, now).value;
        CompleteSettled(c, m, id, userID, d, k, now);
      }
    }
  }

  ghost predicate ConfirmedAtEvent(c: Config, events: seq<Event>, i: nat, id: nat) {
    && i < |events| && events[i].call.ConfirmPairingCall? && events[i].call.pairingID == id
    && ReplyAt(c, events, i).PairingConfirmed?
  }

  lemma SettledAt(c: Config, events: seq<Event>, i: nat, id: nat)
    requires ConfirmedAtEvent(c, events, i, id)
    ensures Settled(c, StateAt(c, events, i + 1), id, ReplyAt(c, events, i))
  {
    hide Inv, Settled, DeviceStep, ConnectorStep, TokenStep, ConfirmPairing;
    StateIsOk(c, events, i);
    var e := events[i];
    ConfirmSettled(c, StateAt(c, events, i), e.call.userID, id, e.call.deviceID, e.now, e.account);
  }

  /** All successful confirmations of one pairing, however many and whatever happens in between,
      give the same device, connector, credential and expiry. */
  lemma ConfirmationsAgree(c: Config, events: seq<Event>, i: nat, j: nat, id: nat)
    requires i <= j && ConfirmedAtEvent(c, events, i, id) && ConfirmedAtEvent(c, events, j, id)
    ensures ReplyAt(c, events, i) == ReplyAt(c, events, j)
  {
    hide StateAt, ReplyAt;
    SettledAt(c, events, i, id);
    SettledAt(c, events, j, id);
    PairingForward(c, events, i + 1, j + 1, id);
  }

  /** After the device or the connector has moved on from the credential a confirmation gave it,
      every further confirmation of that pairing is refused, for good. */
  lemma RefusedOnceMovedOn(c: Config, events: seq<Event>, f: nat, i: nat, j: nat, id: nat)
    requires ConfirmedAtEvent(c, events, f, id) && f < i <= j < |events|
    requires events[j].call.ConfirmPairingCall? && events[j].call.pairingID == id
    requires var reply := ReplyAt(c, events, f);
      || (Exists(c, events, i, Client, reply.deviceID)
          && RowAt(c, events, i, Client, reply.deviceID).slots.live != Some(Sha256(reply.credential)))
      || (Exists(c, events, i, Connector, reply.connectorID) && id in StateAt(c, events, i).pairings
          && RowAt(c, events, i, Connector, reply.connectorID).slots.live != StateAt(c, events, i).pairings[id].connectorCredentialHash)
    ensures !ReplyAt(c, events, j).PairingConfirmed?
  {
    hide StateAt, ReplyAt, Step;
    SettledAt(c, events, f, id);
    PairingForward(c, events, f + 1, i, id);
    PairingForward(c, events, i, j + 1, id);
    SecretHash(c, events, i, id);
    var reply, h := ReplyAt(c, events, f), StateAt(c, events, i).pairings[id].connectorCredentialHash.value;
    if Exists(c, events, i, Client, reply.deviceID)
       && RowAt(c, events, i, Client, reply.deviceID).slots.live != Some(Sha256(reply.credential)) {
      DisplacedIsGone(c, events, f + 1, i, j + 1, Client, reply.deviceID, Sha256(reply.credential));
      NotHeldIsNotLive(StateAt(c, events, j + 1).devices, Sha256(reply.credential));
    } else {
      DisplacedIsGone(c, events, f + 1, i, j + 1, Connector, reply.connectorID, h);
      NotHeldIsNotLive(StateAt(c, events, j + 1).connectors, h);
    }
    if ReplyAt(c, events, j).PairingConfirmed? {
      ConfirmationsAgree(c, events, f, j, id);
      SettledAt(c, events, j, id);
    }
  }

  lemma NotHeldIsNotLive(rows: Subjects, h: Digest)
    requires NotHeld(rows, h)
    ensures forall i :: i in rows ==> rows[i].slots.live != Some(h)
  {
    assert forall i :: i in rows ==> !Holds(rows[i], h);
  }

  lemma SecretHash(c: Config, events: seq<Event>, i: nat, id: nat)
    requires i <= |events| && id in StateAt(c, events, i).pairings
    ensures StateAt(c, events, i).pairings[id].connectorCredentialHash.Some?
  {
    hide StateAt;
    PairingOkAt(c, events, i, id);
  }

  // ---------------------------------------------------------------- the safety code

  /** The transcript an answer shows, if any. */
  function ShownIn(reply: Reply): Option<Transcript> {
    match reply
    case Claimed(transcript, _, _) => Some(transcript)
    case Polled(_, _, _, shown, _) => shown
    case _ => None
  }

  predicate TranscriptMatches(t: Store, transcript: Transcript) {
    && transcript.pairingID in t.pairings
    && var p := t.pairings[transcript.pairingID];
    && p.deviceID.Some? && p.deviceID.value in t.devices
    && transcript == TranscriptOf(transcript.pairingID, p, t.devices[p.deviceID.value])
  }

  lemma ClaimShows(s: Store, userID: UserId, userCode: string, identity: PublicIdentity, proven: bool, challenge: Secret,
                   now: Time, account: Auth)
    ensures var (t, reply) := ClaimPairing(s, userID, userCode, identity, proven, challenge, now, account);
      ShownIn(reply).Some? ==> TranscriptMatches(t, ShownIn(reply).value)
  {
    hide ClaimWithCode, ValidKeyID;
    if Sha256(challenge) in s.challenges {
      CodeShows(s, UseChallenge(s, challenge, now), userID, identity, UserCodes.Normalize(UserCodes.Normalize(userCode)), now);
    }
  }

  lemma CodeShows(s: Store, used: Store, userID: UserId, identity: PublicIdentity, code: string, now: Time)
    ensures var (t, reply) := ClaimWithCode(s, used, userID, identity, code, now);
      ShownIn(reply).Some? ==> TranscriptMatches(t, ShownIn(reply).value)
  {
    hide PairingByCode, DeviceFor;
  }

  lemma PollShows(c: Config, s: Store, secret: Secret, now: Time)
    requires Inv(c, s)
    ensures var (t, reply) := PollPairing(c, s, secret, now); ShownIn(reply).Some? ==> TranscriptMatches(t, ShownIn(reply).value)
  {
    hide Inv, PairingBySecret, PollOpen;
    PollOnlyExpires(c, s, secret, now);
    match PairingBySecret(s, Sha256(secret))
    case None =>
    case Some(i) =>
      var p := s.pairings[i];
      PollOpenShows(c, s, i, secret, None, now);
      if p.deviceID.Some? && p.deviceID.value in s.devices {
        PollOpenShows(c, s, i, secret, Some(TranscriptOf(i, p, s.devices[p.deviceID.value])), now);
        NeverConfirmed(c, s);
        PollOpenKeeps(c, s, i, secret, Some(TranscriptOf(i, p, s.devices[p.deviceID.value])), now);
      }
  }

  lemma PollOpenShows(c: Config, s: Store, id: nat, secret: Secret, shown: Option<Transcript>, now: Time)
    requires id in s.pairings
    ensures var reply := PollOpen(c, s, id, secret, shown, now).1; ShownIn(reply).Some? ==> ShownIn(reply) == shown
  {
  }

  lemma ShownMatches(c: Config, s: Store, e: Event)
    requires Inv(c, s)
    ensures var (t, reply) := Step(c, s, e); ShownIn(reply).Some? ==> TranscriptMatches(t, ShownIn(reply).value)
  {
    hide Inv, TranscriptMatches, DeviceStep, ConnectorStep, BeginPairing, ClaimPairing, ConfirmPairing, PollPairing, ApprovePairing,
      CancelPairing, TrustedIdentities;
    match e.call
    case BeginPairingCall(identity, proven, challenge, code) => BeginAnswers(c, s, identity, proven, challenge, code, e.now);
    case ClaimPairingCall(userID, userCode, identity, proven, challenge) =>
      ClaimShows(s, userID, userCode, identity, proven, challenge, e.now, e.account);
    case ConfirmPairingCall(userID, id, d) => ConfirmAnswers(c, s, userID, id, d, e.now, e.account);
    case PollPairingCall(secret) => PollShows(c, s, secret, e.now);
    case ApprovePairingCall(id, secret, keyID) => ApproveAnswers(s, id, secret, keyID, e.now);
    case CancelPairingCall(id, secret) => CancelAnswers(s, id, secret);
    case _ =>
      if DeviceCall(e.call) { DeviceAnswerKinds(c, s, e); }
      if ConnectorCall(e.call) { ConnectorAnswerKinds(c, s, e); }
  }

  /** Whatever transcripts the claiming device and the polling connector are ever shown for one
      pairing are the same, so both sides compute the same safety code. */
  lemma TranscriptsAgree(c: Config, events: seq<Event>, i: nat, j: nat)
    requires i <= j < |events| && ShownIn(ReplyAt(c, events, i)).Some? && ShownIn(ReplyAt(c, events, j)).Some?
    requires ShownIn(ReplyAt(c, events, i)).value.pairingID == ShownIn(ReplyAt(c, events, j)).value.pairingID
    ensures ShownIn(ReplyAt(c, events, i)) == ShownIn(ReplyAt(c, events, j))
  {
    hide Step, Inv, ShownIn;
    StateIsOk(c, events, i);
    StateIsOk(c, events, j);
    ShownMatches(c, StateAt(c, events, i), events[i]);
    ShownMatches(c, StateAt(c, events, j), events[j]);
    BoundDevice(c, events, i + 1, j + 1, ShownIn(ReplyAt(c, events, i)).value.pairingID);
    PairingForward(c, events, i + 1, j + 1, ShownIn(ReplyAt(c, events, i)).value.pairingID);
  }
}
