/** The caps on incorrect pairing codes: what one claim counts and records
    (internal/connectors/service.go, internal/connectors/postgres/store.go). */
module ClaimLimits {

  const SECOND: int := 1_000_000_000
  const MINUTE: int := 60 * SECOND
  const HOUR: int := 60 * MINUTE
  const ACCOUNT_LIMIT: nat := 10
  const GLOBAL_LIMIT: nat := 120

  /** One recorded incorrect code. */
  datatype Failure = Failure(user: string, at: int)

  type Rows = map<nat, Failure>

  datatype Check = Admitted | TooManyAttempts(retryAfter: int)

  ghost function AccountSince(rows: Rows, user: string, since: int): set<nat> {
    set i | i in rows && rows[i].user == user && rows[i].at > since
  }

  ghost function GlobalSince(rows: Rows, since: int): set<nat> {
    set i | i in rows && rows[i].at > since
  }

  ghost predicate IsOldest(rows: Rows, among: set<nat>, i: nat) {
    i in among && among <= rows.Keys && forall j :: j in among ==> rows[i].at <= rows[j].at
  }

  lemma {:induction false} OldestExists(rows: Rows, among: set<nat>)
    requires among != {} && among <= rows.Keys
    ensures exists i :: IsOldest(rows, among, i)
    decreases among
  {
    var i :| i in among;
    if among == {i} {
      assert IsOldest(rows, among, i);
    } else {
      OldestExists(rows, among - {i});
      var j :| IsOldest(rows, among - {i}, j);
      assert IsOldest(rows, among, if rows[i].at <= rows[j].at then i else j);
    }
  }

  ghost function Oldest(rows: Rows, among: set<nat>): int
    requires among != {} && among <= rows.Keys
  {
    OldestExists(rows, among);
    var i :| IsOldest(rows, among, i);
    rows[i].at
  }

  function Max(a: int, b: int): int { if a > b then a else b }

  /** checkClaimFailures: the account budget first, then the service-wide one. */
  ghost function CheckClaimFailures(rows: Rows, user: string, now: int): Check {
    var account := AccountSince(rows, user, now - HOUR);
    if |account| >= ACCOUNT_LIMIT then TooManyAttempts(Max(SECOND, Oldest(rows, account) + HOUR - now))
    else if |GlobalSince(rows, now - MINUTE)| >= GLOBAL_LIMIT then TooManyAttempts(MINUTE)
    else Admitted
  }

  lemma OldestRow(rows: Rows, among: set<nat>) returns (i: nat)
    requires among != {} && among <= rows.Keys
    ensures i in rows && IsOldest(rows, among, i) && rows[i].at == Oldest(rows, among)
  {
    OldestExists(rows, among);
    i :| IsOldest(rows, among, i) && rows[i].at == Oldest(rows, among);
  }

  lemma OldestIs(rows: Rows, among: set<nat>, i: nat)
    requires IsOldest(rows, among, i)
    ensures Oldest(rows, among) == rows[i].at
  {
    OldestExists(rows, among);
    var j :| IsOldest(rows, among, j) && rows[j].at == Oldest(rows, among);
  }

  /** The two counts and the oldest counted row, as ClaimFailuresForUpdate selects them, and what
      checkClaimFailures makes of them. */
  method CheckFailures(rows: Rows, user: string, now: int) returns (check: Check)
    ensures check == CheckClaimFailures(rows, user, now)
  {
    var account := set i | i in rows && rows[i].user == user && rows[i].at > now - HOUR;
    var global := set i | i in rows && rows[i].at > now - MINUTE;
    assert account == AccountSince(rows, user, now - HOUR) && global == GlobalSince(rows, now - MINUTE);
    if |account| >= ACCOUNT_LIMIT {
      var oldest :| oldest in account;
      var rest := account - {oldest};
      while rest != {}
        invariant oldest in account && rest <= account
        invariant forall j :: j in account && j !in rest ==> rows[oldest].at <= rows[j].at
        decreases |rest|
      {
        var j :| j in rest;
        if rows[j].at < rows[oldest].at { oldest := j; }
        rest := rest - {j};
      }
      OldestIs(rows, account, oldest);
      return TooManyAttempts(Max(SECOND, rows[oldest].at + HOUR - now));
    }
    if |global| >= GLOBAL_LIMIT {
      return TooManyAttempts(MINUTE);
    }
    check := Admitted;
  }

  /** Rows no window counts any more. */
  ghost function Outdated(rows: Rows, before: int): set<nat> {
    set i | i in rows && rows[i].at <= before
  }

  lemma SubsetSize(a: set<nat>, b: set<nat>)
    requires a <= b
    ensures |a| <= |b|
  {
    assert b == a + (b - a);
  }

  /** Everything the table holds of one account, counted or not. */
  ghost function OwnRows(rows: Rows, user: string): set<nat> {
    set i | i in rows && rows[i].user == user
  }

  /** The moment the oldest counted row of a full account stops counting. */
  ghost function Announced(rows: Rows, user: string, now: int): int
    requires |AccountSince(rows, user, now - HOUR)| >= ACCOUNT_LIMIT
  {
    Oldest(rows, AccountSince(rows, user, now - HOUR)) + HOUR
  }

  /** The waiting time an account is told is the first moment its cap stops refusing it, except
      that less than a second is rounded up: while these are its rows, every earlier attempt is
      refused and the attempt at that moment is not. A table never holds more than ten rows of an
      account (ClaimInterleavings.RunKeepsCap). */
  lemma AccountRetryAfterIsExact(rows: Rows, user: string, now: int, later: int)
    requires |OwnRows(rows, user)| <= ACCOUNT_LIMIT <= |AccountSince(rows, user, now - HOUR)| && now <= later
    ensures CheckClaimFailures(rows, user, now).TooManyAttempts?
    ensures var first := Announced(rows, user, now);
      && now < first
      && CheckClaimFailures(rows, user, now).retryAfter == Max(SECOND, first - now)
      && (|AccountSince(rows, user, later - HOUR)| >= ACCOUNT_LIMIT <==> later < first)
  {
    var counted, then_ := AccountSince(rows, user, now - HOUR), AccountSince(rows, user, later - HOUR);
    SubsetSize(counted, OwnRows(rows, user));
    OldestExists(rows, counted);
    var i :| IsOldest(rows, counted, i);
    var oldest := Oldest(rows, counted);
    if later < oldest + HOUR {
      assert then_ == counted;
    } else {
      var j :| IsOldest(rows, counted, j) && rows[j].at == oldest;
      assert then_ <= counted - {j};
      SubsetSize(then_, counted - {j});
    }
  }
}
