/** The three parts together (cmd/server/setup.go): identity announces, the hub commits and sweeps,
    and the relay's checks ask the connector service, which asks identity. */
module AnnouncedRevocations {
  import opened ConnectorTypes
  import opened RelayPeers
  import opened RelayRace
  import ConnectorRuns
  import ConnectorStore
  import CredentialAnswers
  import IdentityHistory
  import IdentitySpec
  import IdentityStore
  import PairingSpec
  import RelayAndService
  import SessionRuns

  /** Row numbers of the identity tables as admissions and revocations spell them. */
  datatype Names = Names(user: nat -> UserId, session: nat -> SessionId) {
    ghost predicate Injective() {
      && (forall u, v :: user(u) == user(v) ==> u == v)
      && (forall u, v :: session(u) == session(v) ==> u == v)
      && (forall u :: user(u) != "")
    }
  }

  /** One history of each part. Before the relay's action `n`, `identityBy[n]` identity calls and
      `eventsBy[n]` connector calls have committed. */
  datatype World = World(
    ic: IdentityStore.Config,
    identity: IdentityHistory.Run,
    cc: ConnectorStore.Config,
    events: seq<ConnectorRuns.Event>,
    actions: seq<Action>,
    identityBy: seq<nat>,
    eventsBy: seq<nat>,
    names: Names
  )

  ghost predicate Ordered(w: World) {
    && |w.identityBy| == |w.eventsBy| == |w.actions|
    && (forall n :: 0 <= n < |w.actions| ==> w.identityBy[n] <= |w.identity.events| && w.eventsBy[n] <= |w.events|)
    && (forall m, n :: 0 <= m <= n < |w.actions| ==> w.identityBy[m] <= w.identityBy[n] && w.eventsBy[m] <= w.eventsBy[n])
  }

  /** Clocks of the identity module do not run backwards, and no operator takes an account back into
      service that was announced inactive. */
  ghost predicate Sound(w: World) {
    && w.names.Injective() && Ordered(w) && IdentityHistory.Honest(w.ic, w.identity)
    && forall i :: 0 <= i < |w.identity.events| && Inactive(w, i) ==>
         SessionRuns.NotReenabled(w.identity, i, IdentityHistory.OutcomeAt(w.ic, w.identity, i).announced.value.userID)
  }

  ghost predicate Inactive(w: World, i: nat)
    requires i < |w.identity.events|
  {
    var o := IdentityHistory.OutcomeAt(w.ic, w.identity, i);
    o.announced.Some? && o.announced.value.accountInactive
  }

  /** What the hub is told of a session's end: the session, or all of an inactive account. */
  function RevocationOf(names: Names, a: IdentitySpec.Announcement): Revocation {
    Revocation(names.user(a.userID), None, None, if a.accountInactive then None else Some(names.session(a.sessionID)))
  }

  ghost predicate ToldByIdentity(w: World, i: nat, r: Revocation)
    requires i < |w.identity.events|
  {
    var o := IdentityHistory.OutcomeAt(w.ic, w.identity, i);
    o.announced.Some? && r == RevocationOf(w.names, o.announced.value)
  }

  /** By action `n` the revocation has been announced, by either service. */
  ghost predicate Announced(w: World, n: nat, r: Revocation)
    requires Ordered(w) && n < |w.actions|
  {
    || (exists i :: 0 <= i < w.eventsBy[n] && ConnectorRuns.ReplyAt(w.cc, w.events, i) == PairingSpec.RevocationAnnounced(r))
    || (exists i :: 0 <= i < w.identityBy[n] && ToldByIdentity(w, i, r))
  }

  ghost predicate AccountAllows(w: World, k: nat, userID: UserId)
    requires k <= |w.identity.events|
  {
    exists u :: w.names.user(u) == userID && IdentitySpec.AccountActive(IdentityHistory.StateAt(w.ic, w.identity, k), u)
  }

  ghost predicate SessionAllows(w: World, k: nat, userID: UserId, sessionID: Option<SessionId>, now: Time)
    requires k <= |w.identity.events|
  {
    exists u, sid :: w.names.user(u) == userID && Some(w.names.session(sid)) == sessionID
      && IdentitySpec.SessionActive(IdentityHistory.StateAt(w.ic, w.identity, k), u, sid, now)
  }

  /** The answers a check is given are the identity module's at that moment. */
  ghost predicate AnsweredBy(w: World, n: nat, e: ConnectorRuns.Event, a: Admission)
    requires Ordered(w) && n < |w.actions|
  {
    && (e.account.Granted? ==> AccountAllows(w, w.identityBy[n], a.userID))
    && (a.role.Client? && e.session.Granted? ==> SessionAllows(w, w.identityBy[n], a.userID, a.sessionID, e.now))
  }

  /** How the parts meet at action `n`: the hub sweeps only what was announced, and a check's
      verdict is ValidateAdmission's answer. */
  ghost predicate Meets(w: World, n: nat, s: Hub)
    requires Ordered(w) && n < |w.actions| && Possible(s, w.actions[n])
  {
    match w.actions[n]
    case Commit(_, r) => Announced(w, n, r)
    case Check(t, verdict) =>
      var a, j := s.info[s.threads[t].job.p], w.eventsBy[n];
      && j < |w.events| && w.events[j].call == ConnectorRuns.ValidateAdmissionCall(a)
      && verdict == RelayAndService.VerdictOf(ConnectorRuns.ReplyAt(w.cc, w.events, j))
      && AnsweredBy(w, n, w.events[j], a)
    case _ => true
  }

  // ---------------------------------------------------------------- the relay without its guard

  /** Enabled, except that a check may come to any verdict. */
  ghost predicate Possible(s: Hub, a: Action) {
    Enabled(s, if a.Check? then a.(verdict := Denied) else a)
  }

  ghost function Play(s: Hub, a: Action): Hub
    requires Possible(s, a)
  {
    if a.Check? && a.verdict.Granted? then s.(checked := s.checked + {s.threads[a.t].job.p}) else Apply(s, a)
  }

  lemma PlayIsApply(s: Hub, a: Action)
    requires Enabled(s, a)
    ensures Possible(s, a) && Play(s, a) == Apply(s, a)
  {
    hide Lists, Selected, Route, RegisterTable, UnregisterTable, Hellos, Offlines, Stops, KeyOf, EnqueueSpec;
  }

  /** The relay's actions from `n` on lead from `s` to `end`, meeting the services at each. */
  ghost predicate Played(w: World, n: nat, s: Hub, end: Hub)
    requires Ordered(w) && n <= |w.actions|
    decreases |w.actions| - n
  {
    if n == |w.actions| then s == end
    else Possible(s, w.actions[n]) && Meets(w, n, s) && Played(w, n + 1, Play(s, w.actions[n]), end)
  }

  // ---------------------------------------------------------------- what the services deliver

  /** Whatever identity has announced it denies at every later moment. */
  lemma ToldIsDenied(w: World, i: nat, k: nat, r: Revocation, a: Admission, now: Time)
    requires Sound(w) && i < k <= |w.identity.events| && ToldByIdentity(w, i, r) && r.Covers(a)
    ensures r.connectorID.None? && r.deviceID.None?
    ensures r.sessionID.None? ==> !AccountAllows(w, k, a.userID)
    ensures r.sessionID.Some? ==> a.role.Client? && !SessionAllows(w, k, a.userID, a.sessionID, now)
  {
    hide IdentityHistory.Honest, IdentityHistory.StateAt, IdentityHistory.OutcomeAt, IdentitySpec.AccountActive, IdentitySpec.SessionActive;
    var told := IdentityHistory.OutcomeAt(w.ic, w.identity, i).announced.value;
    if told.accountInactive {
      assert Inactive(w, i);
      SessionRuns.InactiveAccountIsDenied(w.ic, w.identity, i, k);
    } else {
      TellsItself(w, i);
      forall u ensures !IdentitySpec.SessionActive(IdentityHistory.StateAt(w.ic, w.identity, k), u, told.sessionID, now) {
        SessionRuns.AnnouncedSessionIsDenied(w.ic, w.identity, i, k, told.sessionID, u, now);
      }
    }
  }

  lemma TellsItself(w: World, i: nat)
    requires Sound(w) && i < |w.identity.events| && IdentityHistory.OutcomeAt(w.ic, w.identity, i).announced.Some?
    ensures var o := IdentityHistory.OutcomeAt(w.ic, w.identity, i);
      SessionRuns.Tells(IdentityHistory.StateAt(w.ic, w.identity, i), o, o.announced.value.sessionID)
  {
    hide IdentityHistory.Step, IdentityStore.Inv;
    SessionRuns.ToldOfItsAccount(w.ic, w.identity, i);
  }

  /** Every revocation announced by now is known to a check made now, so the check is one the relay
      machine allows. */
  lemma CheckIsEnabled(w: World, n: nat, s: Hub)
    requires Sound(w) && n < |w.actions| && w.actions[n].Check? && Possible(s, w.actions[n]) && Meets(w, n, s)
    requires forall r :: r in s.committed ==> Announced(w, n, r)
    ensures Enabled(s, w.actions[n])
  {
    hide ConnectorRuns.ReplyAt, RelayAndService.VerdictOf;
    var t, j := w.actions[n].t, w.eventsBy[n];
    var a := s.info[s.threads[t].job.p];
    forall r | r in s.committed && r.Covers(a) ensures RelayAndService.KnownTo(w.cc, w.events, j, r) {
      if i :| 0 <= i < w.identityBy[n] && ToldByIdentity(w, i, r) {
        ToldIsDenied(w, i, w.identityBy[n], r, a, w.events[j].now);
      }
    }
    RelayAndService.ChecksAreHonest(w.cc, w.events, j, s, t);
  }

  lemma AnnouncedStays(w: World, m: nat, n: nat, r: Revocation)
    requires Ordered(w) && m <= n < |w.actions| && Announced(w, m, r)
    ensures Announced(w, n, r)
  {
    hide ConnectorRuns.ReplyAt, ToldByIdentity;
  }

  lemma CommittedAfter(s: Hub, a: Action)
    requires Enabled(s, a)
    ensures Apply(s, a).committed == s.committed + if a.Commit? then {a.r} else {}
  {
    hide Lists, Selected, Route, RegisterTable, UnregisterTable, Hellos, Offlines, Stops, KeyOf, EnqueueSpec;
  }

  /** What the services answer is all the relay machine asks of its checks: every history of the
      three parts is a run of it. */
  lemma {:induction false} PlayedIsRun(w: World, n: nat, s: Hub, end: Hub)
    requires Sound(w) && n <= |w.actions| && Played(w, n, s, end)
    requires n < |w.actions| ==> forall r :: r in s.committed ==> Announced(w, n, r)
    ensures Run(s, w.actions[n..], end)
    decreases |w.actions| - n
  {
    assert Ordered(w);
    hide Announced, Enabled, Apply, Sound, Ordered, Possible, Play;
    if n < |w.actions| {
      var a := w.actions[n];
      if a.Check? {
        CheckIsEnabled(w, n, s);
      } else {
        assert Enabled(s, a) by { PossibleOthers(s, a); }
      }
      PlayIsApply(s, a);
      CommittedAfter(s, a);
      if n + 1 < |w.actions| {
        forall r | r in Apply(s, a).committed ensures Announced(w, n + 1, r) { AnnouncedStays(w, n, n + 1, r); }
      }
      PlayedIsRun(w, n + 1, Apply(s, a), end);
      assert w.actions[n..][1..] == w.actions[n + 1..];
    }
  }

  lemma PossibleOthers(s: Hub, a: Action)
    requires Possible(s, a) && !a.Check?
    ensures Enabled(s, a)
  {
    hide Enabled;
  }

  /** Announced, committed, swept, stopped: in every history of the three parts, once the hub's sweep
      for a session's end has read the table, every peer admitted under that session whose first
      check came to a verdict and whom nobody owes a stop is stopped; and so for every peer of an
      account announced inactive. That the checks deny is not assumed: they ask the services. */
  lemma AnnouncedIsStopped(w: World, end: Hub, i: nat, t: nat, p: PeerId)
    requires Sound(w) && Played(w, 0, EMPTY, end)
    requires i < |w.identity.events| && IdentityHistory.OutcomeAt(w.ic, w.identity, i).announced.Some?
    requires var told := IdentityHistory.OutcomeAt(w.ic, w.identity, i).announced.value;
      && t in end.threads && end.threads[t].job == Sweep(RevocationOf(w.names, told), true)
      && p in end.registered && p in end.info && end.info[p].userID == w.names.user(told.userID)
      && (told.accountInactive || (end.info[p].role.Client? && end.info[p].sessionID == Some(w.names.session(told.sessionID))))
    requires p in end.checked && !StopOwed(end, p)
    ensures p in end.stopped
  {
    hide Played, IdentityHistory.OutcomeAt, IdentityHistory.Honest, Run, StopOwed;
    assert w.names.Injective();
    PlayedIsRun(w, 0, EMPTY, end);
    assert w.actions[0..] == w.actions;
    RevocationTakesEffect(w.actions, end, t, p);
  }

  lemma SweptInHistory(w: World, end: Hub, t: nat, p: PeerId)
    requires Sound(w) && Played(w, 0, EMPTY, end) && t in end.threads && p in end.registered && p in end.info && end.info[p].userID != ""
    requires var a, job := end.info[p], end.threads[t].job;
      || (a.role.Connector? && job == Sweep(Revocation(a.userID, Some(a.subjectID), None, None), true))
      || (a.role.Client? && job == Sweep(Revocation(a.userID, None, Some(a.subjectID), None), true))
    requires p in end.checked && !StopOwed(end, p)
    ensures p in end.stopped
  {
    hide Played, IdentityHistory.OutcomeAt, IdentityHistory.Honest, Run, StopOwed;
    PlayedIsRun(w, 0, EMPTY, end);
    assert w.actions[0..] == w.actions;
    SweptPeersAreStopped(w.actions, end, t, p);
  }

  /** An account that revokes one of its devices stops that device's sockets: once the sweep for what the
      call announced has read the table, every peer of that account and device whose first check came to
      a verdict and whom nobody owes a stop is stopped. */
  lemma RevokedDeviceIsStopped(w: World, end: Hub, i: nat, t: nat, p: PeerId)
    requires Sound(w) && Played(w, 0, EMPTY, end)
    requires i < |w.events| && w.events[i].call.RevokeAccountDeviceCall? && ConnectorRuns.ReplyAt(w.cc, w.events, i).RevocationAnnounced?
    requires t in end.threads && end.threads[t].job == Sweep(ConnectorRuns.ReplyAt(w.cc, w.events, i).revocation, true)
    requires p in end.registered && p in end.info && end.info[p].userID == w.events[i].call.userID
    requires end.info[p].role.Client? && end.info[p].subjectID == w.events[i].call.deviceID
    requires p in end.checked && !StopOwed(end, p)
    ensures p in end.stopped
  {
    hide Played, Sound, StopOwed, ConnectorRuns.ReplyAt, ConnectorRuns.StateAt, CredentialAnswers.EndsDevice;
    CredentialAnswers.DeviceAnswersIff(w.cc, w.events, i);
    SweptInHistory(w, end, t, p);
  }

  /** The same when an account revokes one of its connectors. */
  lemma RevokedConnectorIsStopped(w: World, end: Hub, i: nat, t: nat, p: PeerId)
    requires Sound(w) && Played(w, 0, EMPTY, end)
    requires i < |w.events| && w.events[i].call.RevokeAccountConnectorCall? && ConnectorRuns.ReplyAt(w.cc, w.events, i).RevocationAnnounced?
    requires t in end.threads && end.threads[t].job == Sweep(ConnectorRuns.ReplyAt(w.cc, w.events, i).revocation, true)
    requires p in end.registered && p in end.info && end.info[p].userID == w.events[i].call.userID
    requires end.info[p].role.Connector? && end.info[p].subjectID == w.events[i].call.connectorID
    requires p in end.checked && !StopOwed(end, p)
    ensures p in end.stopped
  {
    hide Played, Sound, StopOwed, ConnectorRuns.ReplyAt, ConnectorRuns.StateAt, CredentialAnswers.EndsConnector;
    CredentialAnswers.ConnectorAnswersIff(w.cc, w.events, i);
    SweptInHistory(w, end, t, p);
  }

  /** The same when a connector revokes itself: the row its credential is live in names the peers. */
  lemma SelfRevokedConnectorIsStopped(w: World, end: Hub, i: nat, t: nat, p: PeerId, k: nat)
    requires Sound(w) && Played(w, 0, EMPTY, end)
    requires i < |w.events| && w.events[i].call.RevokeConnectorCall? && ConnectorRuns.ReplyAt(w.cc, w.events, i).RevocationAnnounced?
    requires t in end.threads && end.threads[t].job == Sweep(ConnectorRuns.ReplyAt(w.cc, w.events, i).revocation, true)
    requires var s := ConnectorRuns.StateAt(w.cc, w.events, i);
      && k in s.connectors && s.connectors[k].slots.live == Some(ConnectorStore.Sha256(w.events[i].call.credential))
      && p in end.registered && p in end.info && end.info[p].userID == s.connectors[k].userID
      && end.info[p].role.Connector? && end.info[p].subjectID == k
    requires p in end.checked && !StopOwed(end, p)
    ensures p in end.stopped
  {
    hide Played, Sound, StopOwed, ConnectorRuns.ReplyAt, ConnectorRuns.StateAt, CredentialAnswers.EndsConnector, ConnectorStore.Inv;
    CredentialAnswers.ConnectorAnswersIff(w.cc, w.events, i);
    CredentialAnswers.ConnectorsAreOwned(w.cc, w.events, i, k);
    ConnectorRuns.StateIsOk(w.cc, w.events, i);
    LiveInOneRow(w.cc, ConnectorRuns.StateAt(w.cc, w.events, i), w.events[i].call.credential, k);
    SweptInHistory(w, end, t, p);
  }

  lemma LiveInOneRow(c: ConnectorStore.Config, s: ConnectorStore.Store, credential: ConnectorStore.Secret, k: nat)
    requires ConnectorStore.Inv(c, s) && k in s.connectors && s.connectors[k].slots.live == Some(ConnectorStore.Sha256(credential))
    ensures forall j :: j in s.connectors && s.connectors[j].slots.live == Some(ConnectorStore.Sha256(credential)) ==> j == k
  {
    hide ConnectorStore.Inv;
    CredentialAnswers.ShownRow(c, s, Connector, credential);
  }

  // ---------------------------------------------------------------- a history in which it happens

  function Unary(n: nat): string { seq(n + 1, _ => 'n') }

  lemma UnaryIsInjective()
    ensures Names(Unary, Unary).Injective()
  {
    forall u: nat, v: nat | Unary(u) == Unary(v) ensures u == v { assert |Unary(u)| == u + 1 && |Unary(v)| == v + 1; }
  }

  /** A Google sign-in and its logout, in an empty identity store. */
  function SignInAndOut(): IdentityHistory.Run {
    var start := IdentityStore.Store(map[], map[], map[], map[], map[], [], 0);
    IdentityHistory.Run(start, [
      IdentityHistory.Event(IdentityHistory.GoogleCall("subject", "address", IdentitySpec.CURRENT), 0),
      IdentityHistory.Event(IdentityHistory.LogoutCall(IdentityStore.Issued(IdentityStore.Orr, 1)), 0)])
  }

  lemma SignInAndOutAnnounces(ic: IdentityStore.Config)
    ensures IdentityHistory.Honest(ic, SignInAndOut())
    ensures IdentityHistory.OutcomeAt(ic, SignInAndOut(), 0).announced.None?
    ensures IdentityHistory.OutcomeAt(ic, SignInAndOut(), 1).announced == Some(IdentitySpec.Announcement(0, 1, false))
    ensures IdentitySpec.AccountActive(IdentityHistory.StateAt(ic, SignInAndOut(), 2), 0)
  {
    var r := SignInAndOut();
    assert IdentityHistory.StateAt(ic, r, 2) == IdentityHistory.Step(ic, IdentityHistory.StateAt(ic, r, 1), r.events[1]).store;
    assert IdentityHistory.StateAt(ic, r, 0) == r.start;
    assert IdentityHistory.StateAt(ic, r, 1) == IdentityHistory.Step(ic, r.start, r.events[0]).store;
  }

  function Socket(): Admission {
    Admission(Unary(0), Client, 0, Some(Unary(1)), PublicIdentity("key", "key"), {}, 1)
  }

  function Ending(): Revocation { Revocation(Unary(0), None, None, Some(Unary(1))) }

  /** The socket joins and is served; the logout's revocation is committed and swept and its stop
      made; the first check is denied and makes its stop too. */
  function JoinSweepCheck(): seq<Action> {
    [ Admit(0, 0, Socket()), Do(0, false), Register(0, []), StartServing(0, 1, 2), Commit(3, Ending()), Scan(3, [0]), Do(3, false),
      Check(1, Denied), Do(1, false) ]
  }

  function Example(ic: IdentityStore.Config, cc: ConnectorStore.Config): World {
    World(ic, SignInAndOut(), cc,
          [ConnectorRuns.Event(ConnectorRuns.ValidateAdmissionCall(Socket()), 0, PairingSpec.Granted, PairingSpec.Denied)],
          JoinSweepCheck(), seq(9, _ => 2), seq(9, _ => 0), Names(Unary, Unary))
  }

  /** Served, with nothing left to do for the serving thread. */
  ghost predicate BeingServed(s: Hub) {
    && s.info == map[0 := Socket()] && s.table == map[KeyOf(Socket()) := 0] && 0 in s.registered && 0 in s.queue && 0 in s.log
    && s.threads == map[0 := Thread(Serve(0, Reading), []), 1 := Thread(Watch(0), []), 2 := Thread(Lease(0, false), [])]
  }

  lemma ServingStep(s: Hub)
    requires Joined(s, Socket())
    ensures var t := Apply(s, Register(0, []));
      Enabled(t, StartServing(0, 1, 2)) && BeingServed(Apply(t, StartServing(0, 1, 2)))
  {
    var t := Apply(s, Register(0, []));
    Registering(s, Socket());
    assert t.threads[0].todo == [];
  }

  /** Swept and stopped, the sweep's work done. */
  ghost predicate SweptAway(s: Hub) {
    && s.info == map[0 := Socket()] && 0 in s.registered && 0 in s.queue && 0 in s.log && 0 in s.stopped
    && s.threads == map[0 := Thread(Serve(0, Reading), []), 1 := Thread(Watch(0), []), 2 := Thread(Lease(0, false), []),
                        3 := Thread(Sweep(Ending(), true), [])]
  }

  lemma SweepingSteps(s: Hub)
    requires BeingServed(s)
    ensures Enabled(s, Commit(3, Ending()))
    ensures var s1 := Apply(s, Commit(3, Ending()));
      && Enabled(s1, Scan(3, [0]))
      && var s2 := Apply(s1, Scan(3, [0]));
      && Enabled(s2, Do(3, false)) && SweptAway(Apply(s2, Do(3, false)))
  {
    var s1 := Apply(s, Commit(3, Ending()));
    assert s1.table.Values == {0} by { assert s1.table[KeyOf(Socket())] == 0; }
    assert Selected(s1.table, s1.info, (b: Admission) => s1.threads[3].job.r.Covers(b)) == {0};
    var s2 := Apply(s1, Scan(3, [0]));
    assert s2.threads[3].todo == [StopPeer(0)];
    assert s2.threads[3].todo[1..] == [];
  }

  lemma CheckingSteps(s: Hub)
    requires SweptAway(s)
    ensures Enabled(s, Check(1, Denied)) && s.info[s.threads[1].job.p] == Socket()
    ensures var s1 := Apply(s, Check(1, Denied));
      && Enabled(s1, Do(1, false))
      && var end := Apply(s1, Do(1, false));
      && end.info == map[0 := Socket()] && 0 in end.registered && 0 in end.checked && !StopOwed(end, 0)
      && 3 in end.threads && end.threads[3].job == Sweep(Ending(), true)
  {
    var s1 := Apply(s, Check(1, Denied));
    assert s1.threads[1].todo == [StopPeer(0)] && [StopPeer(0)][1..] == [];
  }

  /** The relay's action `n` leads from `s` to `t`, meeting the services. */
  ghost predicate Follows(w: World, n: nat, s: Hub, t: Hub)
    requires Ordered(w) && n < |w.actions|
  {
    Possible(s, w.actions[n]) && Meets(w, n, s) && Play(s, w.actions[n]) == t
  }

  lemma {:induction false} Chained(w: World, hs: seq<Hub>, n: nat)
    requires Ordered(w) && |hs| == |w.actions| + 1 && n <= |w.actions|
    requires forall m :: n <= m < |w.actions| ==> Follows(w, m, hs[m], hs[m + 1])
    ensures Played(w, n, hs[n], hs[|w.actions|])
    decreases |w.actions| - n
  {
    hide Possible, Meets, Play;
    if n < |w.actions| {
      assert Follows(w, n, hs[n], hs[n + 1]);
      Chained(w, hs, n + 1);
    }
  }

  lemma ExampleIsDenied(ic: IdentityStore.Config, cc: ConnectorStore.Config)
    ensures RelayAndService.VerdictOf(ConnectorRuns.ReplyAt(cc, Example(ic, cc).events, 0)) == Denied
  {
    assert ConnectorRuns.StateAt(cc, Example(ic, cc).events, 0) == ConnectorStore.EMPTY_STORE;
  }

  lemma ExampleMeets(ic: IdentityStore.Config, cc: ConnectorStore.Config)
    ensures var w := Example(ic, cc);
      && Sound(w) && Announced(w, 4, Ending()) && ToldByIdentity(w, 1, Ending()) && AccountAllows(w, 2, Unary(0))
      && RelayAndService.VerdictOf(ConnectorRuns.ReplyAt(cc, w.events, 0)) == Denied
  {
    hide IdentityHistory.OutcomeAt, IdentityHistory.StateAt, IdentityHistory.Honest, IdentitySpec.AccountActive,
      ConnectorRuns.ReplyAt, RelayAndService.VerdictOf;
    var w := Example(ic, cc);
    UnaryIsInjective();
    SignInAndOutAnnounces(ic);
    ExampleIsDenied(ic, cc);
    assert w.names.user(0) == Unary(0);
    assert ToldByIdentity(w, 1, Ending());
  }

  ghost predicate Leads(s: Hub, a: Action, t: Hub) {
    Enabled(s, a) && Apply(s, a) == t
  }

  lemma OthersMeet(w: World, n: nat, s: Hub, t: Hub)
    requires Ordered(w) && n < |w.actions| && Leads(s, w.actions[n], t) && !w.actions[n].Commit? && !w.actions[n].Check?
    ensures Follows(w, n, s, t)
  {
    hide Enabled, Apply;
  }

  lemma CommitMeets(w: World, n: nat, s: Hub, t: Hub)
    requires Ordered(w) && n < |w.actions| && Leads(s, w.actions[n], t) && w.actions[n].Commit? && Announced(w, n, w.actions[n].r)
    ensures Follows(w, n, s, t)
  {
    hide Enabled, Apply, Announced;
  }

  lemma CheckMeets(w: World, s: Hub, t: Hub)
    requires Ordered(w) && |w.actions| == 9 && w.actions[7] == Check(1, Denied) && w.eventsBy[7] == 0 && w.identityBy[7] == 2
    requires |w.events| == 1
      && w.events[0] == ConnectorRuns.Event(ConnectorRuns.ValidateAdmissionCall(Socket()), 0, PairingSpec.Granted, PairingSpec.Denied)
    requires Leads(s, Check(1, Denied), t) && s.info[s.threads[1].job.p] == Socket() && AccountAllows(w, 2, Unary(0))
    requires RelayAndService.VerdictOf(ConnectorRuns.ReplyAt(w.cc, w.events, 0)) == Denied
    ensures Follows(w, 7, s, t)
  {
    PlayIsApply(s, w.actions[7]);
    hide Apply, Play, ConnectorRuns.ReplyAt, RelayAndService.VerdictOf, AccountAllows;
  }

  lemma FirstSteps() returns (s1: Hub, s2: Hub, s3: Hub, s4: Hub)
    ensures Leads(EMPTY, Admit(0, 0, Socket()), s1) && Leads(s1, Do(0, false), s2) && Leads(s2, Register(0, []), s3)
    ensures Leads(s3, StartServing(0, 1, 2), s4) && BeingServed(s4)
  {
    Joining(Socket());
    hide Apply, BeingServed;
    s1 := Apply(EMPTY, Admit(0, 0, Socket()));
    s2 := Apply(s1, Do(0, false));
    ServingStep(s2);
    s3 := Apply(s2, Register(0, []));
    s4 := Apply(s3, StartServing(0, 1, 2));
  }

  lemma LaterSteps(s4: Hub) returns (s5: Hub, s6: Hub, s7: Hub, s8: Hub, end: Hub)
    requires BeingServed(s4)
    ensures Leads(s4, Commit(3, Ending()), s5) && Leads(s5, Scan(3, [0]), s6) && Leads(s6, Do(3, false), s7)
    ensures Leads(s7, Check(1, Denied), s8) && s7.info[s7.threads[1].job.p] == Socket() && Leads(s8, Do(1, false), end)
    ensures end.info == map[0 := Socket()] && 0 in end.registered && 0 in end.checked && !StopOwed(end, 0)
    ensures 3 in end.threads && end.threads[3].job == Sweep(Ending(), true)
  {
    SweepingSteps(s4);
    hide BeingServed, StopOwed, Apply;
    s5 := Apply(s4, Commit(3, Ending()));
    s6 := Apply(s5, Scan(3, [0]));
    s7 := Apply(s6, Do(3, false));
    CheckingSteps(s7);
    s8 := Apply(s7, Check(1, Denied));
    end := Apply(s8, Do(1, false));
  }

  lemma ExampleSteps(ic: IdentityStore.Config, cc: ConnectorStore.Config) returns (end: Hub)
    ensures Ordered(Example(ic, cc)) && Played(Example(ic, cc), 0, EMPTY, end)
    ensures end.info == map[0 := Socket()] && 0 in end.registered && 0 in end.checked && !StopOwed(end, 0)
    ensures 3 in end.threads && end.threads[3].job == Sweep(Ending(), true)
  {
    var w := Example(ic, cc);
    ExampleMeets(ic, cc);
    hide Leads, Sound, Announced, ToldByIdentity, AccountAllows, Follows, Played, BeingServed, SweptAway, StopOwed,
      ConnectorRuns.ReplyAt, RelayAndService.VerdictOf, KeyOf;
    var s1, s2, s3, s4 := FirstSteps();
    OthersMeet(w, 0, EMPTY, s1);
    OthersMeet(w, 1, s1, s2);
    OthersMeet(w, 2, s2, s3);
    OthersMeet(w, 3, s3, s4);
    var s5, s6, s7, s8, last := LaterSteps(s4);
    CommitMeets(w, 4, s4, s5);
    OthersMeet(w, 5, s5, s6);
    OthersMeet(w, 6, s6, s7);
    CheckMeets(w, s7, s8);
    OthersMeet(w, 8, s8, last);
    end := last;
    Chained(w, [EMPTY, s1, s2, s3, s4, s5, s6, s7, s8, end], 0);
  }

  /** The theorem above is about something: in this history of the three parts the session's end is
      announced, committed and swept, and its socket is stopped. */
  lemma JointHistoryExists(ic: IdentityStore.Config, cc: ConnectorStore.Config) returns (end: Hub)
    ensures var w := Example(ic, cc);
      && Sound(w) && Played(w, 0, EMPTY, end) && ToldByIdentity(w, 1, Ending())
      && 3 in end.threads && end.threads[3].job == Sweep(Ending(), true)
      && 0 in end.registered && end.info == map[0 := Socket()] && 0 in end.stopped
  {
    var w := Example(ic, cc);
    ExampleMeets(ic, cc);
    hide Sound, Played, StopOwed, IdentityHistory.OutcomeAt, ConnectorRuns.ReplyAt, RelayAndService.VerdictOf, AccountAllows, Announced;
    end := ExampleSteps(ic, cc);
    SignInAndOutAnnounces(ic);
    AnnouncedIsStopped(w, end, 1, 3, 0);
  }
}
