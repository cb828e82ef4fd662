/** Claims as they interleave in the database. A claim reads its clock first, then takes the
    account's advisory lock and counts; a wrong code deletes outdated rows and inserts one, and
    both become visible when it commits. */
module ClaimInterleavings {
  import opened ClaimLimits

  datatype Phase =
    | ClockRead
    | Counted                      // passed the check, holds the account lock
    | Recorded(purge: set<nat>)    // has deleted and inserted, not committed
    | Over

  datatype Claim = Claim(user: string, now: int, phase: Phase)

  /** `history` keeps every row ever committed; `horizon` is the latest clock of any purge. */
  datatype System = System(rows: Rows, history: Rows, claims: map<nat, Claim>, horizon: int)

  datatype Action =
    | Open(c: nat, user: string, now: int)
    | Count(c: nat)
    | Record(c: nat)
    | Commit(c: nat, row: nat)
    | GiveUp(c: nat)               // the code was right, or the transaction rolled back

  /** `wait` bounds how far a claim's clock lags when it counts, `k` how many claims are between
      count and commit at once. */
  datatype Bounds = Bounds(wait: int, k: nat)

  predicate InFlight(claim: Claim) { claim.phase.Counted? || claim.phase.Recorded? }

  ghost function AllInFlight(s: System): set<nat> {
    set c | c in s.claims && InFlight(s.claims[c])
  }

  ghost predicate LockFree(s: System, c: nat)
    requires c in s.claims
  {
    forall d :: d in s.claims && d != c && InFlight(s.claims[d]) ==> s.claims[d].user != s.claims[c].user
  }

  ghost predicate Enabled(b: Bounds, s: System, a: Action) {
    match a
    case Open(c, _, _) => c !in s.claims
    case Count(c) =>
      && c in s.claims && s.claims[c].phase.ClockRead? && LockFree(s, c)
      && s.horizon <= s.claims[c].now + b.wait
      && |AllInFlight(s)| < b.k
    case Record(c) => c in s.claims && s.claims[c].phase.Counted?
    case Commit(c, row) => c in s.claims && s.claims[c].phase.Recorded? && row !in s.history
    case GiveUp(c) => c in s.claims && InFlight(s.claims[c])
  }

  ghost function Apply(s: System, a: Action): System
    requires !a.Open? ==> a.c in s.claims
    requires a.Commit? ==> s.claims[a.c].phase.Recorded?
  {
    match a
    case Open(c, user, now) => s.(claims := s.claims[c := Claim(user, now, ClockRead)])
    case Count(c) =>
      var claim := s.claims[c];
      var admitted := CheckClaimFailures(s.rows, claim.user, claim.now).Admitted?;
      s.(claims := s.claims[c := claim.(phase := if admitted then Counted else Over)])
    case Record(c) =>
      var claim := s.claims[c];
      s.(claims := s.claims[c := claim.(phase := Recorded(Outdated(s.rows, claim.now - HOUR)))],
         horizon := Max(s.horizon, claim.now))
    case Commit(c, row) =>
      var claim := s.claims[c];
      var failure := Failure(claim.user, claim.now);
      System((s.rows - claim.phase.purge)[row := failure], s.history[row := failure],
             s.claims[c := claim.(phase := Over)], s.horizon)
    case GiveUp(c) => s.(claims := s.claims[c := s.claims[c].(phase := Over)])
  }

  const EMPTY: System := System(map[], map[], map[], 0)

  ghost predicate Run(b: Bounds, s: System, actions: seq<Action>, end: System)
    decreases |actions|
  {
    if actions == [] then s == end
    else Enabled(b, s, actions[0]) && Run(b, Apply(s, actions[0]), actions[1..], end)
  }

  // ---------------------------------------------------------------- windows

  /** Rows of one account in the half-open stretch (from, from + length]. */
  ghost function AccountWindow(rows: Rows, user: string, from: int, length: int): set<nat> {
    set i | i in rows && rows[i].user == user && from < rows[i].at <= from + length
  }

  ghost function GlobalWindow(rows: Rows, from: int): set<nat> {
    set i | i in rows && from < rows[i].at <= from + MINUTE
  }

  ghost function InFlightWindow(s: System, from: int): set<nat> {
    set c | c in s.claims && InFlight(s.claims[c]) && from < s.claims[c].now <= from + MINUTE
  }

  ghost predicate Bookkeeping(s: System) {
    && (forall i :: i in s.rows ==> i in s.history && s.rows[i] == s.history[i])
    && (forall i :: i in s.history && i !in s.rows ==> s.history[i].at <= s.horizon - HOUR)
    && (forall c :: c in s.claims && s.claims[c].phase.Recorded? ==> s.claims[c].now <= s.horizon)
    && (forall c, i :: c in s.claims && s.claims[c].phase.Recorded? && i in s.claims[c].phase.purge ==>
         i in s.history && s.history[i].at <= s.horizon - HOUR)
    && (forall c, d :: c in s.claims && d in s.claims && c != d && InFlight(s.claims[c]) && InFlight(s.claims[d]) ==>
         s.claims[c].user != s.claims[d].user)
  }

  /** No stretch of `length` holds more than the account limit, and one that an in-flight claim of
      the account will add to still has room. */
  ghost predicate AccountRoom(s: System, length: int) {
    && (forall user, from :: |AccountWindow(s.history, user, from, length)| <= ACCOUNT_LIMIT)
    && (forall c, from :: c in s.claims && InFlight(s.claims[c]) && from < s.claims[c].now <= from + length ==>
         |AccountWindow(s.history, s.claims[c].user, from, length)| < ACCOUNT_LIMIT)
  }

  ghost predicate GlobalRoom(s: System, k: nat) {
    forall from :: |GlobalWindow(s.history, from)| + |InFlightWindow(s, from)| <= GLOBAL_LIMIT - 1 + k
  }

  // ---------------------------------------------------------------- every step

  lemma StepKeepsBooks(b: Bounds, s: System, a: Action)
    requires Bookkeeping(s) && Enabled(b, s, a)
    ensures Bookkeeping(Apply(s, a))
  {
    hide Bookkeeping, Enabled, Apply;
    match a
    case Open(_, _, _) => OthersKeepBooks(b, s, a);
    case Count(c) => CountKeepsBooks(b, s, c);
    case Record(c) => RecordKeepsBooks(b, s, c);
    case Commit(c, row) => CommitKeepsBooks(b, s, c, row);
    case GiveUp(_) => OthersKeepBooks(b, s, a);
  }

  lemma OthersKeepBooks(b: Bounds, s: System, a: Action)
    requires Bookkeeping(s) && Enabled(b, s, a) && (a.Open? || a.GiveUp?)
    ensures Bookkeeping(Apply(s, a))
  {
    hide CheckClaimFailures, LockFree, AllInFlight, Outdated;
  }

  lemma CountKeepsBooks(b: Bounds, s: System, c: nat)
    requires Bookkeeping(s) && Enabled(b, s, Count(c))
    ensures Bookkeeping(Apply(s, Count(c)))
  {
  }

  lemma RecordKeepsBooks(b: Bounds, s: System, c: nat)
    requires Bookkeeping(s) && Enabled(b, s, Record(c))
    ensures Bookkeeping(Apply(s, Record(c)))
  {
  }

  lemma CommitKeepsBooks(b: Bounds, s: System, c: nat, row: nat)
    requires Bookkeeping(s) && Enabled(b, s, Commit(c, row))
    ensures Bookkeeping(Apply(s, Commit(c, row)))
  {
    hide CheckClaimFailures, LockFree, AllInFlight, Outdated;
  }

  /** While a claim counts, nothing a later purge removed could have mattered to it. */
  lemma CountSeesWindow(b: Bounds, s: System, c: nat, from: int)
    requires 0 <= b.wait && Bookkeeping(s) && Enabled(b, s, Count(c)) && from < s.claims[c].now
    ensures from + HOUR - b.wait >= s.claims[c].now ==>
      AccountWindow(s.history, s.claims[c].user, from, HOUR - b.wait) <= AccountSince(s.rows, s.claims[c].user, s.claims[c].now - HOUR)
    ensures b.wait <= HOUR - MINUTE && from + MINUTE >= s.claims[c].now ==>
      GlobalWindow(s.history, from) <= GlobalSince(s.rows, s.claims[c].now - MINUTE)
  {
  }

  lemma CountKeepsAccountRoom(b: Bounds, s: System, c: nat)
    requires 0 <= b.wait && Bookkeeping(s) && AccountRoom(s, HOUR - b.wait) && Enabled(b, s, Count(c))
    ensures AccountRoom(Apply(s, Count(c)), HOUR - b.wait)
  {
    var t, claim, length := Apply(s, Count(c)), s.claims[c], HOUR - b.wait;
    forall from | InFlight(t.claims[c]) && from < claim.now <= from + length
      ensures |AccountWindow(s.history, claim.user, from, length)| < ACCOUNT_LIMIT
    {
      CountSeesWindow(b, s, c, from);
      SubsetSize(AccountWindow(s.history, claim.user, from, length), AccountSince(s.rows, claim.user, claim.now - HOUR));
    }
  }

  lemma WindowGrows(rows: Rows, row: nat, f: Failure, user: string, from: int, length: int)
    requires row !in rows
    ensures AccountWindow(rows[row := f], user, from, length) ==
      AccountWindow(rows, user, from, length) + (if user == f.user && from < f.at <= from + length then {row} else {})
  {
  }

  lemma CommitKeepsAccountRoom(b: Bounds, s: System, c: nat, row: nat)
    requires Bookkeeping(s) && AccountRoom(s, HOUR - b.wait) && Enabled(b, s, Commit(c, row))
    ensures AccountRoom(Apply(s, Commit(c, row)), HOUR - b.wait)
  {
    hide CheckClaimFailures, LockFree, AllInFlight, Outdated, AccountWindow;
    var t, claim, length := Apply(s, Commit(c, row)), s.claims[c], HOUR - b.wait;
    var f := Failure(claim.user, claim.now);
    forall user, from ensures |AccountWindow(t.history, user, from, length)| <= ACCOUNT_LIMIT {
      WindowGrows(s.history, row, f, user, from, length);
      if user == claim.user && from < claim.now <= from + length {
        assert |AccountWindow(s.history, claim.user, from, length)| < ACCOUNT_LIMIT;
      }
    }
    forall d, from | d in t.claims && InFlight(t.claims[d]) && from < t.claims[d].now <= from + length
      ensures |AccountWindow(t.history, t.claims[d].user, from, length)| < ACCOUNT_LIMIT
    {
      assert d != c && t.claims[d] == s.claims[d];
      WindowGrows(s.history, row, f, t.claims[d].user, from, length);
    }
  }

  lemma StepKeepsAccountRoom(b: Bounds, s: System, a: Action)
    requires 0 <= b.wait && Bookkeeping(s) && AccountRoom(s, HOUR - b.wait) && Enabled(b, s, a)
    ensures AccountRoom(Apply(s, a), HOUR - b.wait)
  {
    match a
    case Count(c) => CountKeepsAccountRoom(b, s, c);
    case Commit(c, row) => CommitKeepsAccountRoom(b, s, c, row);
    case Open(_, _, _) =>
    case Record(_) =>
    case GiveUp(_) =>
  }

  lemma CountAddsOneInFlight(b: Bounds, s: System, c: nat, from: int)
    requires Enabled(b, s, Count(c))
    ensures var t := Apply(s, Count(c));
      && |InFlightWindow(t, from)| <= |AllInFlight(s)| + 1
      && (InFlightWindow(t, from) == InFlightWindow(s, from)
          || (InFlight(t.claims[c]) && from < s.claims[c].now <= from + MINUTE))
  {
    var t := Apply(s, Count(c));
    SubsetSize(InFlightWindow(t, from), AllInFlight(s) + {c});
  }

  lemma CountKeepsGlobalRoom(b: Bounds, s: System, c: nat, from: int)
    requires 0 <= b.wait <= HOUR - MINUTE && Bookkeeping(s) && GlobalRoom(s, b.k) && Enabled(b, s, Count(c))
    ensures var t := Apply(s, Count(c));
      |GlobalWindow(t.history, from)| + |InFlightWindow(t, from)| <= GLOBAL_LIMIT - 1 + b.k
  {
    var t, now := Apply(s, Count(c)), s.claims[c].now;
    assert t.history == s.history;
    CountAddsOneInFlight(b, s, c, from);
    if InFlightWindow(t, from) != InFlightWindow(s, from) {
      CountSeesWindow(b, s, c, from);
      SubsetSize(GlobalWindow(s.history, from), GlobalSince(s.rows, now - MINUTE));
    }
  }

  lemma GlobalWindowGrows(rows: Rows, row: nat, f: Failure, from: int)
    requires row !in rows
    ensures GlobalWindow(rows[row := f], from) == GlobalWindow(rows, from) + if from < f.at <= from + MINUTE then {row} else {}
  {
  }

  lemma CommitKeepsGlobalRoom(b: Bounds, s: System, c: nat, row: nat, from: int)
    requires GlobalRoom(s, b.k) && Enabled(b, s, Commit(c, row))
    ensures var t := Apply(s, Commit(c, row));
      |GlobalWindow(t.history, from)| + |InFlightWindow(t, from)| <= GLOBAL_LIMIT - 1 + b.k
  {
    var t := Apply(s, Commit(c, row));
    GlobalWindowGrows(s.history, row, Failure(s.claims[c].user, s.claims[c].now), from);
    assert InFlightWindow(t, from) == InFlightWindow(s, from) - if from < s.claims[c].now <= from + MINUTE then {c} else {};
  }

  lemma OthersKeepGlobalRoom(b: Bounds, s: System, a: Action, from: int)
    requires GlobalRoom(s, b.k) && Enabled(b, s, a) && (a.Open? || a.Record? || a.GiveUp?)
    ensures var t := Apply(s, a);
      |GlobalWindow(t.history, from)| + |InFlightWindow(t, from)| <= GLOBAL_LIMIT - 1 + b.k
  {
    var t := Apply(s, a);
    assert InFlightWindow(t, from) <= InFlightWindow(s, from);
    SubsetSize(InFlightWindow(t, from), InFlightWindow(s, from));
  }

  lemma StepKeepsGlobalRoom(b: Bounds, s: System, a: Action)
    requires 0 <= b.wait <= HOUR - MINUTE && Bookkeeping(s) && GlobalRoom(s, b.k) && Enabled(b, s, a)
    ensures GlobalRoom(Apply(s, a), b.k)
  {
    forall from ensures |GlobalWindow(Apply(s, a).history, from)| + |InFlightWindow(Apply(s, a), from)| <= GLOBAL_LIMIT - 1 + b.k {
      match a
      case Count(c) => CountKeepsGlobalRoom(b, s, c, from);
      case Commit(c, row) => CommitKeepsGlobalRoom(b, s, c, row, from);
      case _ => OthersKeepGlobalRoom(b, s, a, from);
    }
  }

  lemma {:induction false} RunKeepsRoom(b: Bounds, s: System, actions: seq<Action>, end: System)
    requires 0 <= b.wait && Bookkeeping(s) && AccountRoom(s, HOUR - b.wait) && Run(b, s, actions, end)
    ensures AccountRoom(end, HOUR - b.wait)
    ensures b.wait <= HOUR - MINUTE && GlobalRoom(s, b.k) ==> GlobalRoom(end, b.k)
    decreases |actions|
  {
    if actions != [] {
      StepKeepsBooks(b, s, actions[0]);
      StepKeepsAccountRoom(b, s, actions[0]);
      if b.wait <= HOUR - MINUTE && GlobalRoom(s, b.k) { StepKeepsGlobalRoom(b, s, actions[0]); }
      RunKeepsRoom(b, Apply(s, actions[0]), actions[1..], end);
    }
  }

  lemma EmptyHasRoom(length: int, k: nat)
    requires k >= 1
    ensures Bookkeeping(EMPTY) && AccountRoom(EMPTY, length) && GlobalRoom(EMPTY, k)
  {
    forall from ensures GlobalWindow(EMPTY.history, from) == {} && InFlightWindow(EMPTY, from) == {} { }
    forall user, from ensures AccountWindow(EMPTY.history, user, from, length) == {} { }
  }

  ghost predicate Reachable(b: Bounds, s: System) {
    exists actions :: Run(b, EMPTY, actions, s)
  }

  lemma ReachableHasRoom(b: Bounds, s: System)
    requires 0 <= b.wait && b.k >= 1 && Reachable(b, s)
    ensures AccountRoom(s, HOUR - b.wait)
    ensures b.wait <= HOUR - MINUTE ==> GlobalRoom(s, b.k)
  {
    var actions :| Run(b, EMPTY, actions, s);
    EmptyHasRoom(HOUR - b.wait, b.k);
    RunKeepsRoom(b, EMPTY, actions, s);
  }

  // ---------------------------------------------------------------- what the table holds

  /** A claim that is going to insert a row leaves at most nine of its account's standing. */
  ghost predicate LeavesRoom(rows: Rows, claim: Claim) {
    match claim.phase
    case Counted => |AccountSince(rows, claim.user, claim.now - HOUR)| < ACCOUNT_LIMIT
    case Recorded(purge) => |OwnRows(rows, claim.user) - purge| < ACCOUNT_LIMIT
    case _ => true
  }

  /** The table never holds more than ten rows of one account. */
  ghost predicate TableCap(s: System) {
    && (forall user :: |OwnRows(s.rows, user)| <= ACCOUNT_LIMIT)
    && (forall c :: c in s.claims ==> LeavesRoom(s.rows, s.claims[c]))
  }

  lemma RecordLeavesRoom(rows: Rows, claim: Claim)
    requires claim.phase.Counted? && LeavesRoom(rows, claim)
    ensures LeavesRoom(rows, claim.(phase := Recorded(Outdated(rows, claim.now - HOUR))))
  {
    assert OwnRows(rows, claim.user) - Outdated(rows, claim.now - HOUR) == AccountSince(rows, claim.user, claim.now - HOUR);
  }

  lemma OwnRowsAfter(rows: Rows, purge: set<nat>, row: nat, f: Failure, user: string)
    requires row !in rows
    ensures OwnRows((rows - purge)[row := f], user) == OwnRows(rows, user) - purge + if f.user == user then {row} else {}
  {
  }

  lemma CommitAddsOne(rows: Rows, claim: Claim, row: nat, user: string)
    requires claim.phase.Recorded? && LeavesRoom(rows, claim) && |OwnRows(rows, user)| <= ACCOUNT_LIMIT && row !in rows
    ensures |OwnRows((rows - claim.phase.purge)[row := Failure(claim.user, claim.now)], user)| <= ACCOUNT_LIMIT
  {
    OwnRowsAfter(rows, claim.phase.purge, row, Failure(claim.user, claim.now), user);
    hide OwnRows;
    SubsetSize(OwnRows(rows, user) - claim.phase.purge, OwnRows(rows, user));
  }

  lemma CommitLeavesOthersRoom(rows: Rows, claim: Claim, row: nat, other: Claim)
    requires claim.phase.Recorded? && LeavesRoom(rows, other) && (InFlight(other) ==> other.user != claim.user)
    ensures LeavesRoom((rows - claim.phase.purge)[row := Failure(claim.user, claim.now)], other)
  {
    var after := (rows - claim.phase.purge)[row := Failure(claim.user, claim.now)];
    if other.phase.Counted? {
      SubsetSize(AccountSince(after, other.user, other.now - HOUR), AccountSince(rows, other.user, other.now - HOUR));
    } else if other.phase.Recorded? {
      SubsetSize(OwnRows(after, other.user) - other.phase.purge, OwnRows(rows, other.user) - other.phase.purge);
    }
  }

  lemma CommitKeepsCap(b: Bounds, s: System, c: nat, row: nat)
    requires TableCap(s) && Bookkeeping(s) && Enabled(b, s, Commit(c, row))
    ensures TableCap(Apply(s, Commit(c, row)))
  {
    var t, claim := Apply(s, Commit(c, row)), s.claims[c];
    assert row !in s.rows;
    assert forall d :: d in s.claims && d != c && InFlight(s.claims[d]) ==> s.claims[d].user != claim.user;
    hide OwnRows, LeavesRoom, Bookkeeping;
    forall user ensures |OwnRows(t.rows, user)| <= ACCOUNT_LIMIT {
      CommitAddsOne(s.rows, claim, row, user);
    }
    forall d | d in t.claims ensures LeavesRoom(t.rows, t.claims[d]) {
      if d != c {
        CommitLeavesOthersRoom(s.rows, claim, row, s.claims[d]);
      } else {
        OverLeavesRoom(t.rows, t.claims[c]);
      }
    }
  }

  lemma OverLeavesRoom(rows: Rows, claim: Claim)
    requires !InFlight(claim)
    ensures LeavesRoom(rows, claim)
  {
  }

  lemma CountLeavesRoom(rows: Rows, claim: Claim)
    requires CheckClaimFailures(rows, claim.user, claim.now).Admitted?
    ensures LeavesRoom(rows, claim.(phase := Counted))
  {
  }

  lemma StepKeepsCap(b: Bounds, s: System, a: Action)
    requires TableCap(s) && Bookkeeping(s) && Enabled(b, s, a)
    ensures TableCap(Apply(s, a))
  {
    hide OwnRows, LeavesRoom, Bookkeeping, CheckClaimFailures, LockFree, AllInFlight;
    if a.Commit? {
      CommitKeepsCap(b, s, a.c, a.row);
    } else {
      var t := Apply(s, a);
      if a.Record? {
        RecordLeavesRoom(s.rows, s.claims[a.c]);
      } else if t.claims[a.c].phase.Counted? {
        CountLeavesRoom(s.rows, s.claims[a.c]);
      } else {
        OverLeavesRoom(s.rows, t.claims[a.c]);
      }
    }
  }

  /** Committed rows stay in the history as they are. */
  ghost predicate Extends(t: Rows, s: Rows) {
    forall i :: i in s ==> i in t && t[i] == s[i]
  }

  lemma HistoryGrows(b: Bounds, s: System, a: Action)
    requires Enabled(b, s, a)
    ensures Extends(Apply(s, a).history, s.history)
  {
    hide CheckClaimFailures, LockFree, AllInFlight;
  }

  lemma {:induction false} RunKeepsCap(b: Bounds, s: System, actions: seq<Action>, end: System)
    requires TableCap(s) && Bookkeeping(s) && Run(b, s, actions, end)
    ensures TableCap(end) && Bookkeeping(end) && Extends(end.history, s.history)
    decreases |actions|
  {
    if actions != [] {
      StepKeepsBooks(b, s, actions[0]);
      StepKeepsCap(b, s, actions[0]);
      HistoryGrows(b, s, actions[0]);
      hide TableCap, Bookkeeping, Enabled, Apply;
      RunKeepsCap(b, Apply(s, actions[0]), actions[1..], end);
    }
  }

  lemma ReachableHasCap(b: Bounds, s: System)
    requires Reachable(b, s)
    ensures TableCap(s) && Bookkeeping(s)
  {
    var actions :| Run(b, EMPTY, actions, s);
    forall user ensures OwnRows(EMPTY.rows, user) == {} { }
    RunKeepsCap(b, EMPTY, actions, s);
  }

  ghost predicate Leads(b: Bounds, s: System, t: System) {
    exists actions :: Run(b, s, actions, t)
  }

  lemma LaterHasCap(b: Bounds, s: System, t: System)
    requires Leads(b, s, t) && TableCap(s) && Bookkeeping(s)
    ensures TableCap(t) && Bookkeeping(t) && Extends(t.history, s.history)
  {
    var actions :| Run(b, s, actions, t);
    hide TableCap, Bookkeeping, Extends, Run;
    RunKeepsCap(b, s, actions, t);
  }

  /** What a refused claim is told, in every state any interleaving reaches: ten rows count, never
      more, and the announced moment is when the oldest of them stops counting. */
  lemma RefusalIsExact(b: Bounds, s: System, user: string, now: int, later: int)
    requires Reachable(b, s) && now <= later
    requires |AccountSince(s.rows, user, now - HOUR)| >= ACCOUNT_LIMIT
    ensures |AccountSince(s.rows, user, now - HOUR)| == ACCOUNT_LIMIT
    ensures var first := Announced(s.rows, user, now);
      && CheckClaimFailures(s.rows, user, now) == TooManyAttempts(Max(SECOND, first - now))
      && now < first
      && (|AccountSince(s.rows, user, later - HOUR)| >= ACCOUNT_LIMIT <==> later < first)
  {
    ReachableHasCap(b, s);
    SubsetSize(AccountSince(s.rows, user, now - HOUR), OwnRows(s.rows, user));
    AccountRetryAfterIsExact(s.rows, user, now, later);
  }

  /** The wait as the account meets it later, whatever the claims of everybody do in between: a
      claim whose clock is short of the announced moment by more than the longest delay is refused
      again; from that moment on only a further failure of the account itself can refuse it. */
  lemma WaitIsExact(b: Bounds, s: System, user: string, now: int, t: System, c: nat)
    requires 0 <= b.wait && Reachable(b, s) && |AccountSince(s.rows, user, now - HOUR)| >= ACCOUNT_LIMIT
    requires Leads(b, s, t) && Enabled(b, t, Count(c)) && t.claims[c].user == user && now <= t.claims[c].now
    ensures var first, clock := Announced(s.rows, user, now), t.claims[c].now;
      var counted := |AccountSince(t.rows, user, clock - HOUR)|;
      && (clock + b.wait < first ==> counted >= ACCOUNT_LIMIT)
      && (clock >= first && OwnRows(t.rows, user) <= s.rows.Keys ==> counted < ACCOUNT_LIMIT)
  {
    var clock := t.claims[c].now;
    assert t.horizon <= clock + b.wait;
    hide Leads, Reachable, Bookkeeping, TableCap, Enabled, Announced, AccountSince, OwnRows, CheckClaimFailures, Extends;
    ReachableHasCap(b, s);
    LaterHasCap(b, s, t);
    RefusalIsExact(b, s, user, now, clock);
    if clock + b.wait < Announced(s.rows, user, now) {
      StillCounted(b, s, t, user, now, clock);
    } else if clock >= Announced(s.rows, user, now) && OwnRows(t.rows, user) <= s.rows.Keys {
      OnlyOldRows(s, t, user, clock);
    }
  }

  lemma StillCounted(b: Bounds, s: System, t: System, user: string, now: int, clock: int)
    requires Bookkeeping(s) && Bookkeeping(t) && Extends(t.history, s.history) && t.horizon <= clock + b.wait && 0 <= b.wait
    requires |AccountSince(s.rows, user, now - HOUR)| >= ACCOUNT_LIMIT && clock + b.wait < Announced(s.rows, user, now)
    ensures |AccountSince(t.rows, user, clock - HOUR)| >= ACCOUNT_LIMIT
  {
    var ten := AccountSince(s.rows, user, now - HOUR);
    var i := OldestRow(s.rows, ten);
    forall j | j in ten ensures j in AccountSince(t.rows, user, clock - HOUR) {
      assert t.history[j] == s.history[j];
    }
    SubsetSize(ten, AccountSince(t.rows, user, clock - HOUR));
  }

  lemma OnlyOldRows(s: System, t: System, user: string, clock: int)
    requires Bookkeeping(s) && Bookkeeping(t) && Extends(t.history, s.history) && OwnRows(t.rows, user) <= s.rows.Keys
    ensures |AccountSince(t.rows, user, clock - HOUR)| <= |AccountSince(s.rows, user, clock - HOUR)|
  {
    var late := AccountSince(t.rows, user, clock - HOUR);
    forall j | j in late ensures j in AccountSince(s.rows, user, clock - HOUR) {
      assert j in OwnRows(t.rows, user) && t.history[j] == s.history[j];
    }
    SubsetSize(AccountSince(t.rows, user, clock - HOUR), AccountSince(s.rows, user, clock - HOUR));
  }

  // ---------------------------------------------------------------- the caps are tight

  lemma {:induction false} RunThen(b: Bounds, s: System, actions: seq<Action>, mid: System, a: Action)
    requires Run(b, s, actions, mid) && Enabled(b, mid, a)
    ensures Run(b, s, actions + [a], Apply(mid, a))
    decreases |actions|
  {
    if actions == [] {
      assert Run(b, Apply(mid, a), [], Apply(mid, a));
      assert [a][1..] == [];
    } else {
      RunThen(b, Apply(s, actions[0]), actions[1..], mid, a);
      assert (actions + [a])[1..] == actions[1..] + [a];
    }
  }

  lemma Reach(b: Bounds, s: System, a: Action)
    requires Reachable(b, s) && Enabled(b, s, a)
    ensures Reachable(b, Apply(s, a))
  {
    var actions :| Run(b, EMPTY, actions, s);
    RunThen(b, EMPTY, actions, s, a);
  }

  ghost function Upto(n: nat): (r: set<nat>)
    ensures |r| == n
    ensures forall i: nat :: i in r <==> i < n
  {
    if n == 0 then {} else Upto(n - 1) + {n - 1}
  }

  /** The first `rows` of the given accounts' wrong codes have committed at time zero and
      `counted` claims have counted. */
  ghost function Staged(user: nat -> string, rows: nat, counted: nat): System
    requires rows <= counted
  {
    var failures := map i: nat | i < rows :: Failure(user(i), 0);
    System(failures, failures, map i: nat | i < counted :: Claim(user(i), 0, if i < rows then Over else Counted), 0)
  }

  lemma StagedRows(user: nat -> string, rows: nat, counted: nat)
    requires rows <= counted
    ensures |GlobalSince(Staged(user, rows, counted).rows, 0 - MINUTE)| == rows
  {
    assert GlobalSince(Staged(user, rows, counted).rows, 0 - MINUTE) == Upto(rows);
  }

  lemma StagedClaims(user: nat -> string, rows: nat, counted: nat)
    requires rows <= counted
    ensures |AllInFlight(Staged(user, rows, counted))| == counted - rows
  {
    assert AllInFlight(Staged(user, rows, counted)) == Upto(counted) - Upto(rows);
    hide AllInFlight, Staged;
    assert Upto(rows) <= Upto(counted);
  }

  lemma StagedCards(user: nat -> string, rows: nat, counted: nat)
    requires rows <= counted
    ensures |GlobalSince(Staged(user, rows, counted).rows, 0 - MINUTE)| == rows
    ensures |AllInFlight(Staged(user, rows, counted))| == counted - rows
  {
    hide *;
    StagedRows(user, rows, counted);
    StagedClaims(user, rows, counted);
  }

  lemma StagedCount(b: Bounds, user: nat -> string, rows: nat, counted: nat)
    requires rows <= counted < rows + b.k && rows < GLOBAL_LIMIT && 0 <= b.wait
    requires |AccountSince(Staged(user, rows, counted).rows, user(counted), 0 - HOUR)| < ACCOUNT_LIMIT
    requires forall i: nat :: rows <= i < counted ==> user(i) != user(counted)
    ensures var s := Staged(user, rows, counted); var a := Open(counted, user(counted), 0);
      Enabled(b, s, a) && Enabled(b, Apply(s, a), Count(counted))
      && Apply(Apply(s, a), Count(counted)) == Staged(user, rows, counted + 1)
  {
    var s := Staged(user, rows, counted);
    StagedCards(user, rows, counted);
    var begun := Apply(s, Open(counted, user(counted), 0));
    assert AllInFlight(begun) == AllInFlight(s);
    assert Apply(begun, Count(counted)).claims == Staged(user, rows, counted + 1).claims;
  }

  lemma StagedCommit(b: Bounds, user: nat -> string, rows: nat, counted: nat)
    requires rows < counted
    ensures var s := Staged(user, rows, counted);
      Enabled(b, s, Record(rows)) && Enabled(b, Apply(s, Record(rows)), Commit(rows, rows))
      && Apply(Apply(s, Record(rows)), Commit(rows, rows)) == Staged(user, rows + 1, counted)
  {
    var s := Staged(user, rows, counted);
    assert Outdated(s.rows, 0 - HOUR) == {};
    var done := Apply(Apply(s, Record(rows)), Commit(rows, rows));
    assert done.rows == Staged(user, rows + 1, counted).rows;
    assert done.claims == Staged(user, rows + 1, counted).claims;
  }

  lemma ReachTwo(b: Bounds, s: System, a1: Action, a2: Action)
    requires Reachable(b, s) && Enabled(b, s, a1) && Enabled(b, Apply(s, a1), a2)
    ensures Reachable(b, Apply(Apply(s, a1), a2))
  {
    Reach(b, s, a1);
    Reach(b, Apply(s, a1), a2);
  }

  lemma CountReached(b: Bounds, user: nat -> string, rows: nat, counted: nat)
    requires rows <= counted < rows + b.k && rows < GLOBAL_LIMIT && 0 <= b.wait
    requires |AccountSince(Staged(user, rows, counted).rows, user(counted), 0 - HOUR)| < ACCOUNT_LIMIT
    requires forall i: nat :: rows <= i < counted ==> user(i) != user(counted)
    requires Reachable(b, Staged(user, rows, counted))
    ensures Reachable(b, Staged(user, rows, counted + 1))
  {
    StagedCount(b, user, rows, counted);
    ReachTwo(b, Staged(user, rows, counted), Open(counted, user(counted), 0), Count(counted));
  }

  lemma CommitReached(b: Bounds, user: nat -> string, rows: nat, counted: nat)
    requires rows < counted && Reachable(b, Staged(user, rows, counted))
    ensures Reachable(b, Staged(user, rows + 1, counted))
  {
    StagedCommit(b, user, rows, counted);
    ReachTwo(b, Staged(user, rows, counted), Record(rows), Commit(rows, rows));
  }

  lemma NothingStaged(b: Bounds, user: nat -> string)
    ensures Staged(user, 0, 0) == EMPTY && Reachable(b, Staged(user, 0, 0))
  {
    var s := Staged(user, 0, 0);
    assert s.rows == map[] && s.history == map[] && s.claims == map[];
    assert Run(b, EMPTY, [], s);
  }

  ghost predicate FitsAccount(user: nat -> string, m: nat) {
    |AccountSince(Staged(user, m, m).rows, user(m), 0 - HOUR)| < ACCOUNT_LIMIT
  }

  /** Claims one after another: each wrong code commits before the next claim counts. */
  lemma {:induction false} Serially(b: Bounds, user: nat -> string, n: nat)
    requires b.k >= 1 && 0 <= b.wait && n <= GLOBAL_LIMIT
    requires forall m: nat :: m < n ==> FitsAccount(user, m)
    ensures Reachable(b, Staged(user, n, n))
  {
    if n == 0 {
      NothingStaged(b, user);
    } else {
      hide Reachable, Staged, FitsAccount;
      Serially(b, user, n - 1);
      OneMore(b, user, n - 1);
    }
  }

  lemma OneMore(b: Bounds, user: nat -> string, n: nat)
    requires b.k >= 1 && 0 <= b.wait && n < GLOBAL_LIMIT && FitsAccount(user, n) && Reachable(b, Staged(user, n, n))
    ensures Reachable(b, Staged(user, n + 1, n + 1))
  {
    hide Reachable, Staged;
    CountReached(b, user, n, n);
    CommitReached(b, user, n, n + 1);
  }

  ghost function Distinct(i: nat): string { seq(i, _ => 'u') }

  lemma DistinctAccounts(rows: nat, counted: nat)
    requires rows <= counted
    ensures |AccountSince(Staged(Distinct, rows, counted).rows, Distinct(counted), 0 - HOUR)| == 0
    ensures forall i: nat :: i < counted ==> Distinct(i) != Distinct(counted)
  {
    forall i: nat | i < counted ensures Distinct(i) != Distinct(counted) {
      assert |Distinct(i)| == i && |Distinct(counted)| == counted;
    }
    assert AccountSince(Staged(Distinct, rows, counted).rows, Distinct(counted), 0 - HOUR) == {};
  }

  /** `m` claims of different accounts all count 119 failures before any of them commits. */
  lemma {:induction false} CountTogether(b: Bounds, m: nat)
    requires b.k >= 1 && 0 <= b.wait && m <= b.k
    ensures Reachable(b, Staged(Distinct, GLOBAL_LIMIT - 1, GLOBAL_LIMIT - 1 + m))
  {
    var n := GLOBAL_LIMIT - 1;
    if m == 0 {
      forall i: nat | i < n ensures FitsAccount(Distinct, i) {
        DistinctAccounts(i, i);
      }
      Serially(b, Distinct, n);
    } else {
      CountTogether(b, m - 1);
      DistinctAccounts(n, n + m - 1);
      CountReached(b, Distinct, n, n + m - 1);
    }
  }

  lemma {:induction false} CommitTogether(b: Bounds, m: nat)
    requires b.k >= 1 && 0 <= b.wait && m <= b.k
    ensures Reachable(b, Staged(Distinct, GLOBAL_LIMIT - 1 + m, GLOBAL_LIMIT - 1 + b.k))
  {
    if m == 0 {
      CountTogether(b, b.k);
    } else {
      CommitTogether(b, m - 1);
      CommitReached(b, Distinct, GLOBAL_LIMIT - 1 + m - 1, GLOBAL_LIMIT - 1 + b.k);
    }
  }

  ghost predicate NeverMoreThanInAMinute(b: Bounds, n: int) {
    forall s, from :: Reachable(b, s) ==> |GlobalWindow(s.history, from)| <= n
  }

  /** With at most `k` claims between count and commit, a minute sees at most 119 + k incorrect
      codes, and no smaller number is a bound: exactly 120 when claims are serial, k - 1 more
      when they overlap. */
  lemma GlobalCapIs(b: Bounds, n: int)
    requires b.k >= 1 && 0 <= b.wait <= HOUR - MINUTE
    ensures NeverMoreThanInAMinute(b, n) <==> n >= GLOBAL_LIMIT + b.k - 1
  {
    hide GlobalWindow, Reachable;
    var all := GLOBAL_LIMIT - 1 + b.k;
    forall s, from | Reachable(b, s) ensures |GlobalWindow(s.history, from)| <= all {
      ReachableHasRoom(b, s);
    }
    GlobalCapIsReached(b);
  }

  lemma GlobalCapIsReached(b: Bounds)
    requires b.k >= 1 && 0 <= b.wait <= HOUR - MINUTE
    ensures exists s :: Reachable(b, s) && |GlobalWindow(s.history, -1)| == GLOBAL_LIMIT - 1 + b.k
  {
    var all := GLOBAL_LIMIT - 1 + b.k;
    CommitTogether(b, b.k);
    hide Reachable;
    var s := Staged(Distinct, all, all);
    assert GlobalWindow(s.history, -1) == Upto(all);
  }

  ghost function Same(i: nat): string { "a" }

  lemma TenSerialFailures(b: Bounds)
    requires b.k >= 1 && 0 <= b.wait
    ensures Reachable(b, Staged(Same, 10, 10))
  {
    forall m: nat | m < 10 ensures FitsAccount(Same, m) {
      assert AccountSince(Staged(Same, m, m).rows, "a", 0 - HOUR) == Upto(m);
    }
    Serially(b, Same, 10);
  }

  /** A whole claim with a wrong code, run without interruption. */
  ghost function WrongCode(s: System, c: nat, row: nat): System
    requires c in s.claims
  {
    var claim := s.claims[c];
    var failure := Failure(claim.user, claim.now);
    System((s.rows - Outdated(s.rows, claim.now - HOUR))[row := failure], s.history[row := failure],
           s.claims[c := claim.(phase := Over)], Max(s.horizon, claim.now))
  }

  lemma WrongCodeCommits(b: Bounds, s: System, c: nat, row: nat)
    requires Reachable(b, s) && Enabled(b, s, Count(c)) && row !in s.history
    requires CheckClaimFailures(s.rows, s.claims[c].user, s.claims[c].now).Admitted?
    ensures Reachable(b, WrongCode(s, c, row))
  {
    ReachTwo(b, s, Count(c), Record(c));
    var recorded := Apply(Apply(s, Count(c)), Record(c));
    Reach(b, recorded, Commit(c, row));
    assert Apply(recorded, Commit(c, row)) == WrongCode(s, c, row);
  }

  /** Ten wrong codes of account "a" at time zero; then its claim 10 reads its clock, and so does
      claim 11 of account "b", a full hour in. */
  ghost function BeforePurge(late: int): System {
    var s := Staged(Same, 10, 10);
    s.(claims := s.claims[10 := Claim("a", late, ClockRead)][11 := Claim("b", HOUR, ClockRead)])
  }

  lemma BeforePurgeReached(b: Bounds, late: int)
    requires b.k >= 1 && 0 <= b.wait
    ensures Reachable(b, BeforePurge(late))
    ensures AllInFlight(BeforePurge(late)) == {}
  {
    TenSerialFailures(b);
    ReachTwo(b, Staged(Same, 10, 10), Open(10, "a", late), Open(11, "b", HOUR));
  }

  /** Claim 11 goes first and deletes all ten rows; claim 10 then counts no failure of its own
      account, though ten are recent. */
  lemma LateClaimEscapes(b: Bounds) returns (end: System)
    requires b.k >= 1 && 0 <= b.wait < HOUR
    ensures Reachable(b, end)
    ensures forall length :: length > HOUR - b.wait ==> |AccountWindow(end.history, "a", -1, length)| > ACCOUNT_LIMIT
  {
    var late := HOUR - b.wait;
    var s := BeforePurge(late);
    BeforePurgeReached(b, late);
    assert AccountSince(s.rows, "b", 0) == {} && GlobalSince(s.rows, HOUR - MINUTE) == {};
    WrongCodeCommits(b, s, 11, 10);
    var purged := WrongCode(s, 11, 10);
    PurgedState(s, purged);
    SubsetSize(GlobalSince(purged.rows, late - MINUTE), {10});
    assert AccountSince(purged.rows, "a", late - HOUR) == {};
    WrongCodeCommits(b, purged, 10, 11);
    end := WrongCode(purged, 10, 11);
    ElevenInHistory(end.history, late);
  }

  lemma PurgedState(s: System, purged: System)
    requires 11 in s.claims && s.claims[11] == Claim("b", HOUR, ClockRead) && AllInFlight(s) == {}
    requires forall i :: i in s.rows ==> s.rows[i].at == 0
    requires purged == WrongCode(s, 11, 10)
    ensures purged.rows == map[10 := Failure("b", HOUR)]
    ensures AllInFlight(purged) == {}
  {
  }

  lemma ElevenInHistory(history: Rows, late: int)
    requires 0 < late
    requires forall i: nat :: i < 10 ==> i in history && history[i] == Failure("a", 0)
    requires 11 in history && history[11] == Failure("a", late)
    ensures forall length :: length > late ==> |AccountWindow(history, "a", -1, length)| > ACCOUNT_LIMIT
  {
    var eleven := Upto(10) + {11};
    forall length | length > late ensures |AccountWindow(history, "a", -1, length)| > ACCOUNT_LIMIT {
      SubsetSize(eleven, AccountWindow(history, "a", -1, length));
    }
  }

  ghost predicate NeverOverAccountCap(b: Bounds, length: int) {
    forall s, user, from :: Reachable(b, s) ==> |AccountWindow(s.history, user, from, length)| <= ACCOUNT_LIMIT
  }

  /** The account cap. A claim that counts no later than `wait` after reading its clock keeps ten
      incorrect codes per account in any stretch of an hour less that wait, under every
      interleaving. The full hour holds only without any wait: a purge by a claim with a later
      clock can hide rows from an earlier one. */
  lemma AccountCapHoldsIff(b: Bounds, length: int)
    requires b.k >= 1 && 0 <= b.wait < HOUR
    ensures NeverOverAccountCap(b, length) <==> length <= HOUR - b.wait
  {
    if length <= HOUR - b.wait {
      forall s, user, from | Reachable(b, s) ensures |AccountWindow(s.history, user, from, length)| <= ACCOUNT_LIMIT {
        ReachableHasRoom(b, s);
        SubsetSize(AccountWindow(s.history, user, from, length), AccountWindow(s.history, user, from, HOUR - b.wait));
      }
    } else {
      var s := LateClaimEscapes(b);
      assert |AccountWindow(s.history, "a", -1, length)| > ACCOUNT_LIMIT;
    }
  }
}
