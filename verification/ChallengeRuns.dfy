/** Challenges over whole runs: for whom, how long and how often one is good. */
module ChallengeRuns {
  import opened ConnectorTypes
  import opened ConnectorStore
  import opened PairingSpec
  import opened ConnectorRuns
  import ConnectorWrites
  import CredentialSpec
  import UserCodes

  /** The call presented this challenge and committed its use. */
  predicate Spends(e: Event, reply: Reply, challenge: Secret) {
    match e.call
    case BeginPairingCall(_, _, presented, _) => presented == challenge && reply.Begun?
    case ClaimPairingCall(_, _, _, _, presented) =>
      presented == challenge && (reply.Claimed? || reply == Refused(InvalidCode) || reply == Refused(TooLate))
    case _ => false
  }

  /** The row is as it was, but for having been used in this call. */
  predicate KeepsChallenge(s: Store, t: Store, e: Event, reply: Reply, h: Digest)
    requires h in s.challenges
  {
    && h in t.challenges
    && t.challenges[h] == if Spends(e, reply, h.of) then s.challenges[h].(usedAt := Some(e.now)) else s.challenges[h]
  }

  lemma BeginSpends(c: Config, s: Store, e: Event, h: Digest)
    requires e.call.BeginPairingCall? && h in s.challenges
    ensures var (t, reply) := BeginPairing(c, s, e.call.identity, e.call.proven, e.call.challenge, e.call.code, e.now);
      KeepsChallenge(s, t, e, reply, h)
  {
    hide ConnectorWrites.Collides, ValidKeyID, ConnectorWrites.ExpirePairingsForKey, PairingSpec.NewPairing;
  }

  lemma CodeSpends(s: Store, used: Store, userID: UserId, identity: PublicIdentity, code: string, now: Time)
    ensures var (t, reply) := ClaimWithCode(s, used, userID, identity, code, now);
      if reply.Claimed? || reply == Refused(InvalidCode) || reply == Refused(TooLate) then t.challenges == used.challenges
      else t.challenges == s.challenges
  {
    hide PairingByCode;
  }

  lemma ClaimSpends(c: Config, s: Store, e: Event, h: Digest)
    requires e.call.ClaimPairingCall? && h in s.challenges
    ensures var (t, reply) := ClaimPairing(s, e.call.userID, e.call.userCode, e.call.identity, e.call.proven, e.call.challenge, e.now, e.account);
      KeepsChallenge(s, t, e, reply, h)
  {
    hide ClaimWithCode, ValidKeyID, UserCodes.Normalize;
    if Sha256(e.call.challenge) in s.challenges {
      var code := UserCodes.Normalize(UserCodes.Normalize(e.call.userCode));
      CodeSpends(s, UseChallenge(s, e.call.challenge, e.now), e.call.userID, e.call.identity, code, e.now);
    }
  }

  lemma IssueSpends(c: Config, s: Store, e: Event, h: Digest)
    requires TokensOk(s) && e.call.IssueChallengeCall? && h in s.challenges
    ensures var (t, reply) := IssueChallenge(c, s, e.call.purpose, e.call.owner, e.now); KeepsChallenge(s, t, e, reply, h)
  {
  }

  lemma OthersSpendNothing(c: Config, s: Store, e: Event)
    requires !e.call.IssueChallengeCall? && !e.call.BeginPairingCall? && !e.call.ClaimPairingCall?
    ensures Step(c, s, e).0.challenges == s.challenges
  {
    hide ConfirmPairing, PollPairing, ApprovePairing, CancelPairing, DeviceStep, ConnectorStep;
    if DeviceCall(e.call) {
      DeviceSpendsNothing(c, s, e);
    } else if ConnectorCall(e.call) {
      ConnectorSpendsNothing(c, s, e);
    } else {
      hide CredentialSpec.ConsumeRelayTicket, CredentialSpec.ValidateAdmission;
    }
  }

  lemma DeviceSpendsNothing(c: Config, s: Store, e: Event)
    requires DeviceCall(e.call)
    ensures DeviceStep(c, s, e).0.challenges == s.challenges
  {
    hide CredentialSpec.RotateDevice, CredentialSpec.ActivateDevice, CredentialSpec.RevokeAccountDevice, CredentialSpec.IssueBrowserTicket;
  }

  lemma ConnectorSpendsNothing(c: Config, s: Store, e: Event)
    requires ConnectorCall(e.call)
    ensures ConnectorStep(c, s, e).0.challenges == s.challenges
  {
    hide CredentialSpec.RotateConnector, CredentialSpec.ActivateConnector, CredentialSpec.RevokeConnector,
      CredentialSpec.RevokeAccountConnector, CredentialSpec.IssueConnectorTicket;
  }

  lemma StepSpends(c: Config, s: Store, e: Event, h: Digest)
    requires TokensOk(s) && h in s.challenges
    ensures var (t, reply) := Step(c, s, e); KeepsChallenge(s, t, e, reply, h)
  {
    hide Step, TokensOk, IssueChallenge, BeginPairing, ClaimPairing;
    if e.call.IssueChallengeCall? {
      IssueCall(c, s, e);
      IssueSpends(c, s, e, h);
    } else if e.call.BeginPairingCall? {
      BeginCall(c, s, e);
      BeginSpends(c, s, e, h);
    } else if e.call.ClaimPairingCall? {
      ClaimCall(c, s, e);
      ClaimSpends(c, s, e, h);
    } else {
      OthersSpendNothing(c, s, e);
    }
  }

  // ---------------------------------------------------------------- along a run

  ghost predicate SpentBetween(c: Config, events: seq<Event>, i: nat, j: nat, challenge: Secret)
    requires j <= |events|
  {
    exists k :: i < k < j && Spends(events[k], ReplyAt(c, events, k), challenge)
  }

  lemma TokensAt(c: Config, events: seq<Event>, n: nat)
    requires n <= |events|
    ensures TokensOk(StateAt(c, events, n))
  {
    hide StateAt, RowsOk, PairingsOk, CodesUnique, OneActivePerKey, TrustOk, TokensOk;
    StateIsOk(c, events, n);
  }

  lemma {:induction false} ChallengeLasts(c: Config, events: seq<Event>, i: nat, j: nat, h: Digest)
    requires i < j <= |events| && h in StateAt(c, events, i + 1).challenges && StateAt(c, events, i + 1).challenges[h].usedAt.None?
    ensures var a := StateAt(c, events, i + 1).challenges[h];
      && h in StateAt(c, events, j).challenges
      && StateAt(c, events, j).challenges[h] == a.(usedAt := StateAt(c, events, j).challenges[h].usedAt)
      && (StateAt(c, events, j).challenges[h].usedAt.Some? <==> SpentBetween(c, events, i, j, h.of))
    decreases j
  {
    hide Step, Spends;
    if i + 1 < j {
      ChallengeLasts(c, events, i, j - 1, h);
      TokensAt(c, events, j - 1);
      StepSpends(c, StateAt(c, events, j - 1), events[j - 1], h);
    } else {
      assert !SpentBetween(c, events, i, j, h.of);
    }
  }

  /** What issuing comes to: a fresh challenge for a connector, or for a device of a named account. */
  lemma IssueAnswersIff(c: Config, events: seq<Event>, i: nat)
    requires i < |events| && events[i].call.IssueChallengeCall?
    ensures var t, reply, call, now := StateAt(c, events, i + 1), ReplyAt(c, events, i), events[i].call, events[i].now;
      && (reply.ChallengeIssued? <==> call.purpose == "connector" || (call.purpose == "device" && call.owner.Some? && call.owner.value != ""))
      && (reply.ChallengeIssued? ==>
           && reply.expiresAt == now + c.challengeLifetime && Sha256(reply.challenge) !in StateAt(c, events, i).challenges
           && Sha256(reply.challenge) in t.challenges
           && t.challenges[Sha256(reply.challenge)] == Challenge(call.purpose, call.owner, now, reply.expiresAt, None))
      && (!reply.ChallengeIssued? ==> t == StateAt(c, events, i))
  {
    hide Step;
    TokensAt(c, events, i);
    IssueCall(c, StateAt(c, events, i), events[i]);
  }

  /** A challenge is open for the purpose and the account it was issued for and no other, for exactly one
      lifetime, until one call commits its use: a begun pairing, a claim that went through, or a claim
      with a wrong or late code. */
  lemma ChallengeOpenIff(c: Config, events: seq<Event>, i: nat, j: nat, purpose: string, owner: Option<UserId>, now: Time)
    requires i < j <= |events| && events[i].call.IssueChallengeCall? && ReplyAt(c, events, i).ChallengeIssued?
    ensures ChallengeOpen(StateAt(c, events, j), ReplyAt(c, events, i).challenge, purpose, owner, now) <==>
      && purpose == events[i].call.purpose && owner == events[i].call.owner && now < events[i].now + c.challengeLifetime
      && !SpentBetween(c, events, i, j, ReplyAt(c, events, i).challenge)
  {
    hide StateAt, ReplyAt, SpentBetween;
    IssueAnswersIff(c, events, i);
    ChallengeLasts(c, events, i, j, Sha256(ReplyAt(c, events, i).challenge));
  }
}
