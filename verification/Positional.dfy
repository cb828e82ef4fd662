/** Fixed-width positional notation, most significant digit first. Byte order, six-digit codes,
    base-32 user codes and base64 groups are all instances of it. The radix is one of the four the
    services use, so every division below is by a constant. */
module Positional {

  datatype Radix = Decimal | Base32 | SixBits | Bytes
  {
    function Size(): nat {
      match this
      case Decimal => 10
      case Base32 => 32
      case SixBits => 64
      case Bytes => 256
    }

    function Times(v: nat): nat {
      match this
      case Decimal => v * 10
      case Base32 => v * 32
      case SixBits => v * 64
      case Bytes => v * 256
    }

    function Quotient(v: nat): nat {
      match this
      case Decimal => v / 10
      case Base32 => v / 32
      case SixBits => v / 64
      case Bytes => v / 256
    }

    function Last(v: nat): nat {
      match this
      case Decimal => v % 10
      case Base32 => v % 32
      case SixBits => v % 64
      case Bytes => v % 256
    }

    ghost function Pow(n: nat): nat {
      if n == 0 then 1 else Times(Pow(n - 1))
    }
  }

  predicate IsDigits(ds: seq<nat>, r: Radix) {
    forall i :: 0 <= i < |ds| ==> ds[i] < r.Size()
  }

  function FromDigits(ds: seq<nat>, r: Radix): nat {
    if ds == [] then 0 else r.Times(FromDigits(ds[..|ds| - 1], r)) + ds[|ds| - 1]
  }

  function ToDigits(v: nat, r: Radix, n: nat): (ds: seq<nat>)
    ensures |ds| == n && IsDigits(ds, r)
  {
    if n == 0 then [] else ToDigits(r.Quotient(v), r, n - 1) + [r.Last(v)]
  }

  lemma Append(ds: seq<nat>, d: nat, r: Radix)
    ensures FromDigits(ds + [d], r) == r.Times(FromDigits(ds, r)) + d
  {
    assert (ds + [d])[..|ds|] == ds;
  }

  /** Writing a number that fits and reading it back gives the number. */
  lemma {:induction false} ReadWritten(v: nat, r: Radix, n: nat)
    requires v < r.Pow(n)
    ensures FromDigits(ToDigits(v, r, n), r) == v
  {
    if n > 0 {
      ReadWritten(r.Quotient(v), r, n - 1);
      Append(ToDigits(r.Quotient(v), r, n - 1), r.Last(v), r);
    }
  }

  lemma Divides(r: Radix, v: nat, d: nat, bound: nat)
    requires d < r.Size() && v < bound
    ensures r.Quotient(r.Times(v) + d) == v && r.Last(r.Times(v) + d) == d && r.Times(v) + d < r.Times(bound)
  {
  }

  /** Reading digits gives a number that fits, and writing that number gives the digits. */
  lemma {:induction false} WriteRead(ds: seq<nat>, r: Radix)
    requires IsDigits(ds, r)
    ensures FromDigits(ds, r) < r.Pow(|ds|)
    ensures ToDigits(FromDigits(ds, r), r, |ds|) == ds
  {
    if ds != [] {
      var shorter, d := ds[..|ds| - 1], ds[|ds| - 1];
      WriteRead(shorter, r);
      Divides(r, FromDigits(shorter, r), d, r.Pow(|ds| - 1));
      hide Radix.Times, Radix.Quotient, Radix.Last;
      assert ds == shorter + [d];
    }
  }
}
