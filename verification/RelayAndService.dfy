/** The relay fed by the connector service. */
module RelayAndService {
  import opened ConnectorTypes
  import ConnectorStore
  import ConnectorRuns
  import PairingSpec
  import RevocationRuns
  import TicketRuns
  import opened RelayPeers
  import opened RelayRace

  /** Every peer of the run was admitted by a consumption of the service's run. */
  ghost predicate AdmittedByService(c: ConnectorStore.Config, events: seq<ConnectorRuns.Event>, actions: seq<Action>) {
    forall i :: 0 <= i < |actions| && actions[i].Admit? ==> Consumed(c, events, actions[i].a)
  }

  ghost predicate Consumed(c: ConnectorStore.Config, events: seq<ConnectorRuns.Event>, a: Admission) {
    exists j :: TicketRuns.AdmittedAt(c, events, j, a)
  }

  ghost predicate AllConsumed(c: ConnectorStore.Config, events: seq<ConnectorRuns.Event>, info: Info) {
    forall p :: p in info ==> Consumed(c, events, info[p])
  }

  lemma StepKeepsConsumed(c: ConnectorStore.Config, events: seq<ConnectorRuns.Event>, s: Hub, a: Action)
    requires Enabled(s, a) && AllConsumed(c, events, s.info) && (a.Admit? ==> Consumed(c, events, a.a))
    ensures AllConsumed(c, events, Apply(s, a).info)
  {
    hide Consumed;
  }

  lemma {:induction false} RunKeepsConsumed(c: ConnectorStore.Config, events: seq<ConnectorRuns.Event>, s: Hub, actions: seq<Action>,
                                            end: Hub)
    requires Run(s, actions, end) && AllConsumed(c, events, s.info) && AdmittedByService(c, events, actions)
    ensures AllConsumed(c, events, end.info)
    decreases |actions|
  {
    hide AllConsumed, Consumed, Enabled, Apply;
    if actions != [] {
      StepKeepsConsumed(c, events, s, actions[0]);
      RunKeepsConsumed(c, events, Apply(s, actions[0]), actions[1..], end);
    }
  }

  // ---------------------------------------------------------------- the relay's authorization check

  /** How monitorAuthorization takes ValidateAdmission's answer. */
  function VerdictOf(reply: PairingSpec.Reply): Verdict {
    if reply.Valid? then Granted else if reply == PairingSpec.Refused(PairingSpec.Unauthorized) then Denied else Transient
  }

  /** A committed revocation is one this service announced earlier, or one of an account session or
      a whole account that the identity module by now answers for. */
  ghost predicate KnownTo(c: ConnectorStore.Config, events: seq<ConnectorRuns.Event>, j: nat, r: Revocation)
    requires j < |events|
  {
    || (exists i :: 0 <= i < j && ConnectorRuns.ReplyAt(c, events, i) == PairingSpec.RevocationAnnounced(r))
    || !events[j].account.Granted?
    || (r.connectorID.None? && r.deviceID.None? && r.sessionID.Some? && !events[j].session.Granted?)
  }

  /** The guard under which the relay machine lets a check pass is what ValidateAdmission delivers:
      whatever it answers, that verdict is one the machine allows in the state it is given in. */
  lemma ChecksAreHonest(c: ConnectorStore.Config, events: seq<ConnectorRuns.Event>, j: nat, s: Hub, t: nat)
    requires j < |events| && t in s.threads && s.threads[t].job.Watch? && s.threads[t].todo == [] && s.threads[t].job.p in s.info
    requires events[j].call == ConnectorRuns.ValidateAdmissionCall(s.info[s.threads[t].job.p])
    requires forall r :: r in s.committed && r.Covers(s.info[s.threads[t].job.p]) ==> KnownTo(c, events, j, r)
    ensures Enabled(s, Check(t, VerdictOf(ConnectorRuns.ReplyAt(c, events, j))))
  {
    hide ConnectorRuns.StateAt, ConnectorRuns.ReplyAt;
    var a := s.info[s.threads[t].job.p];
    forall r | r in s.committed && r.Covers(a) ensures !ConnectorRuns.ReplyAt(c, events, j).Valid? {
      if i :| 0 <= i < j && ConnectorRuns.ReplyAt(c, events, i) == PairingSpec.RevocationAnnounced(r) {
        RevocationRuns.CoveredAdmissionFailsItsChecks(c, events, i, j, r, a);
      } else {
        ValidMeansConsent(c, events, j, a);
      }
    }
  }

  lemma ValidMeansConsent(c: ConnectorStore.Config, events: seq<ConnectorRuns.Event>, j: nat, a: Admission)
    requires j < |events| && events[j].call == ConnectorRuns.ValidateAdmissionCall(a)
    ensures ConnectorRuns.ReplyAt(c, events, j).Valid? ==> events[j].account.Granted? && (a.role.Client? ==> events[j].session.Granted?)
  {
    hide ConnectorRuns.StateAt;
  }

  // ---------------------------------------------------------------- frames

  /** Some consumption of the run admitted `a`, and at that moment an unrevoked trust row joined
      its subject to an unrevoked row with key ID `keyID` of the same account. */
  ghost predicate VouchedFor(c: ConnectorStore.Config, events: seq<ConnectorRuns.Event>, a: Admission, keyID: string) {
    exists j, x :: TicketRuns.AdmittedAt(c, events, j, a)
      && TicketRuns.Backed(ConnectorRuns.StateAt(c, events, j), a.userID, a.role, a.subjectID, x) && x.keyID == keyID
  }

  lemma TrustIsVouchedFor(c: ConnectorStore.Config, events: seq<ConnectorRuns.Event>, a: Admission, keyID: string)
    requires Consumed(c, events, a) && Trusts(a, keyID)
    ensures VouchedFor(c, events, a, keyID)
  {
    hide ConnectorRuns.StateAt, ConnectorRuns.ReplyAt, TicketRuns.Backed;
    var j :| TicketRuns.AdmittedAt(c, events, j, a);
    var x :| x in a.trustedIdentities && x.keyID == keyID;
    TicketRuns.AdmissionsAreSound(c, events, j, a);
  }

  /** Every frame the relay ever put in a peer's queue travelled between two peers of one account
      in opposite roles, each of whose tickets, when consumed, was backed by an unrevoked trust row
      naming the other. */
  lemma FramesAreVouchedFor(c: ConnectorStore.Config, events: seq<ConnectorRuns.Event>, actions: seq<Action>, s: Hub, p: PeerId,
                            item: Item)
    requires Run(EMPTY, actions, s) && AdmittedByService(c, events, actions)
    requires p in s.log && item in s.log[p] && item.Frame?
    ensures p in s.info && item.from in s.info && s.info[p].userID == s.info[item.from].userID && s.info[p].role != s.info[item.from].role
    ensures VouchedFor(c, events, s.info[p], s.info[item.from].identity.keyID)
    ensures VouchedFor(c, events, s.info[item.from], s.info[p].identity.keyID)
  {
    hide VouchedFor, Consumed, Run;
    RunKeepsConsumed(c, events, EMPTY, actions, s);
    FramesAreMutual(actions, s, p, item);
    TrustIsVouchedFor(c, events, s.info[p], s.info[item.from].identity.keyID);
    TrustIsVouchedFor(c, events, s.info[item.from], s.info[p].identity.keyID);
  }
}
