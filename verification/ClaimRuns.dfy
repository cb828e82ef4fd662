/** Wrong pairing codes over whole runs of the connector service: every one is recorded, and the
    caps count exactly the answers that were given. */
module ClaimRuns {
  import opened ConnectorTypes
  import opened ConnectorStore
  import opened PairingSpec
  import opened ConnectorRuns
  import ClaimInterleavings
  import ClaimLimits
  import CredentialSpec
  import UserCodes

  predicate ClocksInOrder(events: seq<Event>) {
    forall i, j :: 0 <= i <= j < |events| ==> events[i].now <= events[j].now
  }

  // ---------------------------------------------------------------- what one call records

  /** A wrong code adds one row of the account at this moment and drops what is an hour old. */
  predicate Records(s: Store, t: Store, userID: UserId, now: Time) {
    && s.next < t.next && s.next in t.failures && t.failures[s.next] == ClaimLimits.Failure(userID, now)
    && (forall i :: i in t.failures && i != s.next ==>
         i in s.failures && t.failures[i] == s.failures[i] && s.failures[i].at > now - ClaimLimits.HOUR)
    && (forall i :: i in s.failures && s.failures[i].at > now - ClaimLimits.HOUR ==> i in t.failures)
  }

  ghost predicate FailuresBelow(s: Store) { forall i :: i in s.failures ==> i < s.next }

  lemma CodeRecords(s: Store, used: Store, userID: UserId, identity: PublicIdentity, code: string, now: Time)
    requires FailuresBelow(s) && used.failures == s.failures && used.next == s.next
    ensures var (t, reply) := ClaimWithCode(s, used, userID, identity, code, now);
      if reply == Refused(InvalidCode) then Records(s, t, userID, now) else t.failures == s.failures
  {
    hide PairingByCode, DeviceFor;
  }

  lemma ClaimRecords(s: Store, userID: UserId, userCode: string, identity: PublicIdentity, proven: bool, challenge: Secret,
                     now: Time, account: Auth)
    requires FailuresBelow(s)
    ensures var (t, reply) := ClaimPairing(s, userID, userCode, identity, proven, challenge, now, account);
      if reply == Refused(InvalidCode) then Records(s, t, userID, now) else t.failures == s.failures
  {
    hide ClaimWithCode, ValidKeyID, Records, ClaimLimits.CheckClaimFailures;
    if Sha256(challenge) in s.challenges {
      CodeRecords(s, UseChallenge(s, challenge, now), userID, identity, UserCodes.Normalize(UserCodes.Normalize(userCode)), now);
    }
  }

  lemma OthersRecordNothing(c: Config, s: Store, e: Event)
    requires !e.call.ClaimPairingCall?
    ensures Step(c, s, e).0.failures == s.failures
  {
    hide BeginPairing, ConfirmPairing, PollPairing, ApprovePairing, CancelPairing, DeviceStep, ConnectorStep, TokenStep;
    if DeviceCall(e.call) {
      DeviceStepRecordsNothing(c, s, e);
    } else if ConnectorCall(e.call) {
      ConnectorStepRecordsNothing(c, s, e);
    } else if !PairingCall(e.call) {
      TokenStepRecordsNothing(c, s, e);
    }
  }

  lemma DeviceStepRecordsNothing(c: Config, s: Store, e: Event)
    requires DeviceCall(e.call)
    ensures DeviceStep(c, s, e).0.failures == s.failures
  {
    hide CredentialSpec.RotateDevice, CredentialSpec.ActivateDevice, CredentialSpec.RevokeAccountDevice, CredentialSpec.IssueBrowserTicket;
  }

  lemma ConnectorStepRecordsNothing(c: Config, s: Store, e: Event)
    requires ConnectorCall(e.call)
    ensures ConnectorStep(c, s, e).0.failures == s.failures
  {
    hide CredentialSpec.RotateConnector, CredentialSpec.ActivateConnector, CredentialSpec.RevokeConnector,
      CredentialSpec.RevokeAccountConnector, CredentialSpec.IssueConnectorTicket;
  }

  lemma TokenStepRecordsNothing(c: Config, s: Store, e: Event)
    requires !PairingCall(e.call) && !DeviceCall(e.call) && !ConnectorCall(e.call)
    ensures TokenStep(c, s, e).0.failures == s.failures
  {
    hide IssueChallenge, CredentialSpec.ConsumeRelayTicket, CredentialSpec.ValidateAdmission;
  }

  // ---------------------------------------------------------------- the table along a run

  /** Event `i` is a claim of this account, or of anyone, that was answered as a wrong code. */
  ghost predicate GuessAt(c: Config, events: seq<Event>, i: nat, user: Option<UserId>) {
    && i < |events| && events[i].call.ClaimPairingCall? && ReplyAt(c, events, i) == Refused(InvalidCode)
    && (user.Some? ==> events[i].call.userID == user.value)
  }

  lemma StepRecords(c: Config, events: seq<Event>, i: nat)
    requires i < |events| && FailuresBelow(StateAt(c, events, i))
    ensures if GuessAt(c, events, i, None) then Records(StateAt(c, events, i), StateAt(c, events, i + 1), events[i].call.userID, events[i].now)
      else StateAt(c, events, i + 1).failures == StateAt(c, events, i).failures
  {
    var s, e := StateAt(c, events, i), events[i];
    hide Step, ClaimPairing, Records;
    if e.call.ClaimPairingCall? {
      ClaimCall(c, s, e);
      ClaimRecords(s, e.call.userID, e.call.userCode, e.call.identity, e.call.proven, e.call.challenge, e.now, e.account);
    } else {
      OthersRecordNothing(c, s, e);
    }
  }

  lemma {:induction false} FailuresBelowAt(c: Config, events: seq<Event>, n: nat)
    requires n <= |events|
    ensures FailuresBelow(StateAt(c, events, n))
  {
    hide Step, ReplyAt, Inv;
    if n > 0 {
      FailuresBelowAt(c, events, n - 1);
      StepRecords(c, events, n - 1);
      StatesMoveForward(c, events, n - 1, n);
    }
  }

  /** A wrong code is always recorded: the table then holds one new row of that account at that
      moment and every row younger than an hour; nothing else is ever written to it. */
  lemma WrongCodeIsRecorded(c: Config, events: seq<Event>, i: nat)
    requires i < |events|
    ensures var s, t := StateAt(c, events, i), StateAt(c, events, i + 1);
      if GuessAt(c, events, i, None) then s.next !in s.failures && Records(s, t, events[i].call.userID, events[i].now)
      else t.failures == s.failures
  {
    hide StateAt, Records, GuessAt;
    FailuresBelowAt(c, events, i);
    StepRecords(c, events, i);
  }

  // ---------------------------------------------------------------- the table and the answers given

  /** Rows of one account, or all rows, after `since`. */
  ghost function Counted(rows: ClaimLimits.Rows, user: Option<UserId>, since: Time): set<nat> {
    if user.None? then ClaimLimits.GlobalSince(rows, since) else ClaimLimits.AccountSince(rows, user.value, since)
  }

  /** Wrong-code answers to one account, or to all, among the first `n` events and after `since`. */
  ghost function Guesses(c: Config, events: seq<Event>, n: nat, user: Option<UserId>, since: Time): nat
    requires n <= |events|
  {
    if n == 0 then 0
    else
      var last := if GuessAt(c, events, n - 1, user) && events[n - 1].now > since then 1 else 0;
      Guesses(c, events, n - 1, user, since) + last
  }

  lemma RecordedSince(s: Store, t: Store, who: UserId, now: Time, user: Option<UserId>, since: Time)
    requires s.next !in s.failures && Records(s, t, who, now) && since >= now - ClaimLimits.HOUR
    ensures Counted(t.failures, user, since)
      == Counted(s.failures, user, since) + if (user.Some? ==> user.value == who) && now > since then {s.next} else {}
  {
    if user.None? {
      assert ClaimLimits.GlobalSince(t.failures, since)
        == ClaimLimits.GlobalSince(s.failures, since) + if now > since then {s.next} else {};
    } else {
      assert ClaimLimits.AccountSince(t.failures, user.value, since)
        == ClaimLimits.AccountSince(s.failures, user.value, since) + if user.value == who && now > since then {s.next} else {};
    }
  }

  lemma RecordedCounts(s: Store, t: Store, who: UserId, now: Time, user: Option<UserId>, since: Time)
    requires s.next !in s.failures && Records(s, t, who, now) && since >= now - ClaimLimits.HOUR
    ensures |Counted(t.failures, user, since)|
      == |Counted(s.failures, user, since)| + if (user.Some? ==> user.value == who) && now > since then 1 else 0
  {
    RecordedSince(s, t, who, now, user, since);
    assert s.next !in Counted(s.failures, user, since);
    hide Counted, Records;
  }

  /** As far back as an hour the table holds exactly the answers that were given. */
  lemma {:induction false} TableCountsGuesses(c: Config, events: seq<Event>, n: nat, user: Option<UserId>, since: Time)
    requires n <= |events| && ClocksInOrder(events) && (n > 0 ==> since >= events[n - 1].now - ClaimLimits.HOUR)
    ensures |Counted(StateAt(c, events, n).failures, user, since)| == Guesses(c, events, n, user, since)
  {
    if n == 0 {
      assert Counted(EMPTY_STORE.failures, user, since) == {};
    } else {
      hide StateAt, Counted, Records;
      TableCountsGuesses(c, events, n - 1, user, since);
      WrongCodeIsRecorded(c, events, n - 1);
      if GuessAt(c, events, n - 1, None) {
        RecordedCounts(StateAt(c, events, n - 1), StateAt(c, events, n), events[n - 1].call.userID, events[n - 1].now, user, since);
      }
    }
  }

  /** The claim gets as far as the caps: it is well formed, its account stands and its challenge is
      open. */
  ghost predicate ReachesCaps(s: Store, e: Event) {
    && e.call.ClaimPairingCall? && e.call.userID != "" && e.call.proven && ValidKeyID(e.call.identity.keyID)
    && |UserCodes.Normalize(e.call.userCode)| == 8 && e.account.Granted?
    && ChallengeOpen(s, e.call.challenge, PURPOSE_DEVICE, Some(e.call.userID), e.now)
  }

  lemma CappedCall(s: Store, userID: UserId, userCode: string, identity: PublicIdentity, proven: bool, challenge: Secret, now: Time, account: Auth)
    ensures var reply := ClaimPairing(s, userID, userCode, identity, proven, challenge, now, account).1;
      && (reply == Refused(InvalidCode) ==> ClaimLimits.CheckClaimFailures(s.failures, userID, now).Admitted?)
      && (userID != "" && proven && ValidKeyID(identity.keyID) && |UserCodes.Normalize(userCode)| == 8 && account.Granted?
          && ChallengeOpen(s, challenge, PURPOSE_DEVICE, Some(userID), now) ==>
            (reply.Refused? && reply.error.AttemptsExceeded? <==>
              |Counted(s.failures, Some(userID), now - ClaimLimits.HOUR)| >= ClaimLimits.ACCOUNT_LIMIT
              || |Counted(s.failures, None, now - ClaimLimits.MINUTE)| >= ClaimLimits.GLOBAL_LIMIT))
  {
    hide ValidKeyID, ClaimLimits.AccountSince, ClaimLimits.GlobalSince, PairingByCode, DeviceFor, ChallengeOpen;
    OpenIsKnown(s, challenge, now, userID);
  }

  lemma OpenIsKnown(s: Store, challenge: Secret, now: Time, userID: UserId)
    ensures ChallengeOpen(s, challenge, PURPOSE_DEVICE, Some(userID), now) ==> Sha256(challenge) in s.challenges
  {
  }

  predicate ToldToWait(reply: Reply) { reply.Refused? && reply.error.AttemptsExceeded? }

  lemma CappedStep(c: Config, s: Store, e: Event)
    requires e.call.ClaimPairingCall?
    ensures Step(c, s, e).1 == Refused(InvalidCode) ==>
      |Counted(s.failures, Some(e.call.userID), e.now - ClaimLimits.HOUR)| < ClaimLimits.ACCOUNT_LIMIT
      && |Counted(s.failures, None, e.now - ClaimLimits.MINUTE)| < ClaimLimits.GLOBAL_LIMIT
    ensures ReachesCaps(s, e) ==>
      (ToldToWait(Step(c, s, e).1) <==>
        |Counted(s.failures, Some(e.call.userID), e.now - ClaimLimits.HOUR)| >= ClaimLimits.ACCOUNT_LIMIT
        || |Counted(s.failures, None, e.now - ClaimLimits.MINUTE)| >= ClaimLimits.GLOBAL_LIMIT)
  {
    hide Step, ClaimPairing, ValidKeyID, ChallengeOpen, UserCodes.Normalize, ClaimLimits.AccountSince, ClaimLimits.GlobalSince;
    ClaimCall(c, s, e);
    CappedCall(s, e.call.userID, e.call.userCode, e.call.identity, e.call.proven, e.call.challenge, e.now, e.account);
  }

  lemma CountsAt(c: Config, events: seq<Event>, n: nat)
    requires n < |events| && ClocksInOrder(events) && events[n].call.ClaimPairingCall?
    ensures |Counted(StateAt(c, events, n).failures, Some(events[n].call.userID), events[n].now - ClaimLimits.HOUR)|
      == Guesses(c, events, n, Some(events[n].call.userID), events[n].now - ClaimLimits.HOUR)
    ensures |Counted(StateAt(c, events, n).failures, None, events[n].now - ClaimLimits.MINUTE)|
      == Guesses(c, events, n, None, events[n].now - ClaimLimits.MINUTE)
  {
    assert n > 0 ==> events[n - 1].now <= events[n].now;
    hide ClocksInOrder, StateAt, Counted, Guesses;
    TableCountsGuesses(c, events, n, Some(events[n].call.userID), events[n].now - ClaimLimits.HOUR);
    TableCountsGuesses(c, events, n, None, events[n].now - ClaimLimits.MINUTE);
  }

  lemma ReachesByClaim(s: Store, e: Event)
    ensures ReachesCaps(s, e) ==> e.call.ClaimPairingCall?
  {
  }

  /** A claim that gets as far as the caps is told to wait exactly when ten wrong codes were
      answered to its account within the hour, or a hundred and twenty to anyone within the minute. */
  lemma CappedIff(c: Config, events: seq<Event>, n: nat)
    requires n < |events| && ClocksInOrder(events) && ReachesCaps(StateAt(c, events, n), events[n])
    ensures ToldToWait(ReplyAt(c, events, n)) <==>
      || Guesses(c, events, n, Some(events[n].call.userID), events[n].now - ClaimLimits.HOUR) >= 10
      || Guesses(c, events, n, None, events[n].now - ClaimLimits.MINUTE) >= 120
  {
    hide ReachesCaps, StateAt, Step, Counted, Guesses, ClocksInOrder, ToldToWait;
    ReachesByClaim(StateAt(c, events, n), events[n]);
    CountsAt(c, events, n);
    CappedStep(c, StateAt(c, events, n), events[n]);
  }

  /** Wrong-code answers in the half-open stretch (from, from + length]. */
  ghost function GuessesWithin(c: Config, events: seq<Event>, n: nat, user: Option<UserId>, from: Time, length: Time): nat
    requires n <= |events|
  {
    if n == 0 then 0
    else
      var last := if GuessAt(c, events, n - 1, user) && from < events[n - 1].now <= from + length then 1 else 0;
      GuessesWithin(c, events, n - 1, user, from, length) + last
  }

  lemma {:induction false} WithinAreSince(c: Config, events: seq<Event>, n: nat, user: Option<UserId>, from: Time, length: Time, since: Time)
    requires n <= |events| && since <= from
    ensures GuessesWithin(c, events, n, user, from, length) <= Guesses(c, events, n, user, since)
  {
    hide GuessAt;
    if n > 0 { WithinAreSince(c, events, n - 1, user, from, length, since); }
  }

  lemma GuessHadRoom(c: Config, events: seq<Event>, n: nat)
    requires n < |events| && ClocksInOrder(events) && GuessAt(c, events, n, None)
    ensures Guesses(c, events, n, Some(events[n].call.userID), events[n].now - ClaimLimits.HOUR) < 10
    ensures Guesses(c, events, n, None, events[n].now - ClaimLimits.MINUTE) < 120
  {
    hide ReachesCaps, StateAt, Step, Counted, Guesses, ClocksInOrder;
    CountsAt(c, events, n);
    CappedStep(c, StateAt(c, events, n), events[n]);
  }

  lemma GuessOf(c: Config, events: seq<Event>, n: nat, user: UserId)
    ensures GuessAt(c, events, n, Some(user)) <==> GuessAt(c, events, n, None) && events[n].call.userID == user
  {
    hide ReplyAt;
  }

  lemma LastFits(c: Config, events: seq<Event>, n: nat, user: Option<UserId>, from: Time, length: Time, limit: nat)
    requires n < |events| && GuessesWithin(c, events, n, user, from, length) <= limit
    requires GuessAt(c, events, n, user) ==> Guesses(c, events, n, user, events[n].now - length) < limit
    ensures GuessesWithin(c, events, n + 1, user, from, length) <= limit
  {
    hide GuessAt, Guesses;
    if GuessAt(c, events, n, user) && from < events[n].now <= from + length {
      WithinAreSince(c, events, n, user, from, length, events[n].now - length);
    }
  }

  /** Over any run, at most ten wrong codes are answered to one account in any hour, and at most a
      hundred and twenty to everyone in any minute. */
  lemma {:induction false} GuessesAreCapped(c: Config, events: seq<Event>, n: nat, user: UserId, from: Time)
    requires n <= |events| && ClocksInOrder(events)
    ensures GuessesWithin(c, events, n, Some(user), from, ClaimLimits.HOUR) <= 10
    ensures GuessesWithin(c, events, n, None, from, ClaimLimits.MINUTE) <= 120
  {
    hide Guesses, GuessAt, ReplyAt, StateAt, ClocksInOrder;
    if n > 0 {
      GuessesAreCapped(c, events, n - 1, user, from);
      OneMoreGuess(c, events, n - 1, user, from);
    }
  }

  lemma OneMoreGuess(c: Config, events: seq<Event>, n: nat, user: UserId, from: Time)
    requires n < |events| && ClocksInOrder(events)
    requires GuessesWithin(c, events, n, Some(user), from, ClaimLimits.HOUR) <= 10
    requires GuessesWithin(c, events, n, None, from, ClaimLimits.MINUTE) <= 120
    ensures GuessesWithin(c, events, n + 1, Some(user), from, ClaimLimits.HOUR) <= 10
    ensures GuessesWithin(c, events, n + 1, None, from, ClaimLimits.MINUTE) <= 120
  {
    hide Guesses, GuessesWithin, GuessAt, ReplyAt, StateAt, ClocksInOrder;
    GuessOf(c, events, n, user);
    if GuessAt(c, events, n, None) { GuessHadRoom(c, events, n); }
    LastFits(c, events, n, Some(user), from, ClaimLimits.HOUR, 10);
    LastFits(c, events, n, None, from, ClaimLimits.MINUTE, 120);
  }

  // ---------------------------------------------------------------- the interleaved claims

  /** A wrong code here is a claim of the interleaved machine run without interruption: what the one
      records is what the other commits. */
  lemma SerialClaimAgrees(s: Store, t: Store, h: ClaimInterleavings.System, k: nat)
    requires FailuresBelow(s) && h.rows == s.failures && k in h.claims && Records(s, t, h.claims[k].user, h.claims[k].now)
    ensures ClaimInterleavings.WrongCode(h, k, s.next).rows == t.failures
  {
    var rows := ClaimInterleavings.WrongCode(h, k, s.next).rows;
    assert rows.Keys == t.failures.Keys;
  }
}
