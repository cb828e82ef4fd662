/** The six-digit code mailed to a new account (internal/identity/token.go). */
module VerificationCodes {
  import opened Positional
  import opened RandomSource

  const CODE_SPACE: nat := 1_000_000
  const MAX_UINT32: nat := 0xFFFF_FFFF
  const LIMIT: nat := MAX_UINT32 - MAX_UINT32 % CODE_SPACE
  const ATTEMPTS: nat := 64

  datatype Issued = Code(digits: seq<nat>) | SourceFailed | Exhausted

  /** What `attempts` draws from `pending` give: the first accepted draw decides. */
  function Draw(pending: seq<byte>, attempts: nat): Issued {
    if attempts == 0 then Exhausted
    else if |pending| < 4 then SourceFailed
    else if FromDigits(pending[..4], Bytes) < LIMIT then Code(CodeOf(FromDigits(pending[..4], Bytes)))
    else Draw(pending[4..], attempts - 1)
  }

  function CodeOf(drawn: nat): seq<nat> {
    ToDigits(drawn % CODE_SPACE, Decimal, 6)
  }

  method IssueVerificationCode(random: Reader) returns (r: Issued)
    modifies random
    ensures r == Draw(old(random.pending), ATTEMPTS)
  {
    for attempt := 0 to ATTEMPTS
      invariant Draw(old(random.pending), ATTEMPTS) == Draw(random.pending, ATTEMPTS - attempt)
    {
      var ok, value := random.ReadFull(4);
      if !ok { return SourceFailed; }
      var drawn := FromDigits(value, Bytes);
      if drawn < LIMIT {
        return Code(ToDigits(drawn % CODE_SPACE, Decimal, 6));
      }
    }
    return Exhausted;
  }

  /** Draws below `limit` that leave remainder `c`. */
  ghost function Hits(limit: nat, space: nat, c: nat): set<nat>
    requires space > 0
  {
    set d: nat | d < limit && d % space == c
  }

  lemma MulMonotone(a: nat, b: nat, c: nat)
    ensures a <= b ==> a * c <= b * c
  {
  }

  lemma DivMod(q: nat, r: nat, base: nat)
    requires r < base
    ensures (q * base + r) / base == q && (q * base + r) % base == r
  {
    var v := q * base + r;
    var d := v / base;
    assert v == d * base + v % base;
    MulMonotone(q + 1, d, base);
    MulMonotone(d + 1, q, base);
    assert (q + 1) * base == q * base + base;
    assert (d + 1) * base == d * base + base;
  }

  /** One more run of `space` draws adds one hit. */
  lemma HitsGrow(q: nat, start: nat, space: nat, c: nat)
    requires c < space && start == q * space
    ensures Hits(start + space, space, c) == Hits(start, space, c) + {start + c} && start + c !in Hits(start, space, c)
  {
    forall d: nat | start <= d < start + space ensures d % space == d - start {
      DivMod(q, d - start, space);
    }
  }

  lemma OneMore(a: set<nat>, b: set<nat>, x: nat)
    requires b == a + {x} && x !in a
    ensures |b| == |a| + 1
  {
  }

  /** Below a multiple of the space every remainder is hit equally often. */
  lemma {:induction false} HitsAreEqual(k: nat, space: nat, c: nat)
    requires c < space
    ensures |Hits(k * space, space, c)| == k
  {
    if k == 0 {
      assert Hits(0, space, c) == {};
    } else {
      var start := (k - 1) * space;
      assert k * space == start + space;
      HitsAreEqual(k - 1, space, c);
      HitsGrow(k - 1, start, space, c);
      OneMore(Hits(start, space, c), Hits(start + space, space, c), start + c);
    }
  }

  /** The 32-bit draws that produce a code. */
  ghost function DrawsFor(code: seq<nat>): set<nat> {
    set d: nat | d < LIMIT && CodeOf(d) == code
  }

  /** Every six-digit code comes from exactly 4294 accepted draws, and no draw produces
      anything else: the code is uniform. */
  lemma CodesAreUniform(code: seq<nat>)
    ensures |DrawsFor(code)| == if |code| == 6 && IsDigits(code, Decimal) then 4294 else 0
  {
    if |code| == 6 && IsDigits(code, Decimal) {
      WriteRead(code, Decimal);
      var c := FromDigits(code, Decimal);
      assert Decimal.Pow(6) == 1_000_000 by { PowTenSix(); }
      HitsAreEqual(4294, CODE_SPACE, c);
      forall d: nat | d < LIMIT ensures CodeOf(d) == code <==> d % CODE_SPACE == c {
        ReadWritten(d % CODE_SPACE, Decimal, 6);
      }
      assert DrawsFor(code) == Hits(4294 * CODE_SPACE, CODE_SPACE, c);
    } else {
      forall d: nat | d < LIMIT ensures CodeOf(d) != code { }
      assert DrawsFor(code) == {};
    }
  }

  lemma PowTenSix()
    ensures Decimal.Pow(6) == 1_000_000
  {
    assert Decimal.Pow(1) == 10 && Decimal.Pow(2) == 100 && Decimal.Pow(3) == 1000;
    assert Decimal.Pow(4) == 10_000 && Decimal.Pow(5) == 100_000;
  }

  /** Issuing succeeds exactly when one of the first 64 four-byte draws is below the limit and
      every earlier one was read and rejected. */
  lemma {:induction false} DrawSucceedsIff(pending: seq<byte>, attempts: nat)
    ensures Draw(pending, attempts).Code? <==>
      exists i: nat :: i < attempts && AcceptsFirstAt(pending, i)
    decreases attempts
  {
    if attempts > 0 && |pending| >= 4 {
      if FromDigits(pending[..4], Bytes) < LIMIT {
        assert AcceptsFirstAt(pending, 0) by { assert pending[4 * 0..4 * 0 + 4] == pending[..4]; }
      } else {
        DrawSucceedsIff(pending[4..], attempts - 1);
        forall i: nat ensures AcceptsFirstAt(pending, i + 1) == AcceptsFirstAt(pending[4..], i) {
          ShiftAccept(pending, i);
        }
        assert !AcceptsFirstAt(pending, 0) by { assert pending[4 * 0..4 * 0 + 4] == pending[..4]; }
        if i: nat :| i < attempts && AcceptsFirstAt(pending, i) {
          assert AcceptsFirstAt(pending[4..], i - 1);
        }
        if i: nat :| i < attempts - 1 && AcceptsFirstAt(pending[4..], i) {
          assert AcceptsFirstAt(pending, i + 1);
        }
      }
    }
  }

  ghost predicate AcceptsFirstAt(pending: seq<byte>, i: nat) {
    && 4 * i + 4 <= |pending|
    && FromDigits(pending[4 * i..4 * i + 4], Bytes) < LIMIT
    && forall j: nat :: j < i ==> Rejects(pending, j)
  }

  ghost predicate Rejects(pending: seq<byte>, j: nat) {
    4 * j + 4 <= |pending| && FromDigits(pending[4 * j..4 * j + 4], Bytes) >= LIMIT
  }

  lemma ShiftAccept(pending: seq<byte>, i: nat)
    requires |pending| >= 4 && FromDigits(pending[..4], Bytes) >= LIMIT
    ensures AcceptsFirstAt(pending, i + 1) == AcceptsFirstAt(pending[4..], i)
  {
    forall j: nat | 4 * j + 4 <= |pending| - 4
      ensures pending[4..][4 * j..4 * j + 4] == pending[4 * (j + 1)..4 * (j + 1) + 4] { }
    assert pending[4 * 0..4 * 0 + 4] == pending[..4];
    assert Rejects(pending, 0);
    forall j: nat ensures Rejects(pending[4..], j) == Rejects(pending, j + 1) { }
    if AcceptsFirstAt(pending[4..], i) {
      forall j: nat | j < i + 1 ensures Rejects(pending, j) {
        if j > 0 { assert Rejects(pending[4..], j - 1); }
      }
    }
    if AcceptsFirstAt(pending, i + 1) {
      forall j: nat | j < i ensures Rejects(pending[4..], j) {
        assert Rejects(pending, j + 1);
      }
    }
  }
}
