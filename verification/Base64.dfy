/** Unpadded standard base64 (section 4 of RFC 4648) as the password-hash string uses it. */
module Base64 {
  import opened Positional
  import opened RandomSource

  datatype Option<+T> = None | Some(value: T)

  type sextet = x: nat | x < 64

  function CharOf(x: sextet): char {
    if x < 26 then (x + 'A' as int) as char
    else if x < 52 then (x - 26 + 'a' as int) as char
    else if x < 62 then (x - 52 + '0' as int) as char
    else if x == 62 then '+' else '/'
  }

  function SextetOf(c: char): Option<sextet> {
    if 'A' <= c <= 'Z' then Some(c as int - 'A' as int)
    else if 'a' <= c <= 'z' then Some(c as int - 'a' as int + 26)
    else if '0' <= c <= '9' then Some(c as int - '0' as int + 52)
    else if c == '+' then Some(62) else if c == '/' then Some(63) else None
  }

  lemma CharsAreSextets(x: sextet, c: char)
    ensures SextetOf(c) == Some(x) <==> c == CharOf(x)
  {
  }

  /** Three bytes are twenty-four bits, which are four sextets. */
  function Group(bs: seq<byte>): (xs: seq<sextet>)
    requires |bs| == 3
    ensures |xs| == 4
  {
    ToDigits(FromDigits(bs, Bytes), SixBits, 4)
  }

  function Ungroup(xs: seq<sextet>): (bs: seq<byte>)
    requires |xs| == 4
    ensures |bs| == 3
  {
    ToDigits(FromDigits(xs, SixBits), Bytes, 3)
  }

  /** A shorter last group is padded with zero bits, of which only the needed sextets are kept. */
  function Sextets(bs: seq<byte>): seq<sextet> {
    if bs == [] then []
    else if |bs| == 1 then Group([bs[0], 0, 0])[..2]
    else if |bs| == 2 then Group([bs[0], bs[1], 0])[..3]
    else Group(bs[..3]) + Sextets(bs[3..])
  }

  /** Strict decoding: the padding bits of a short last group must be zero. */
  function FromSextets(xs: seq<sextet>): Option<seq<byte>> {
    if xs == [] then Some([])
    else if |xs| == 1 then None
    else if |xs| == 2 then
      if Ungroup([xs[0], xs[1], 0, 0])[1..] == [0, 0] then Some(Ungroup([xs[0], xs[1], 0, 0])[..1]) else None
    else if |xs| == 3 then
      if Ungroup([xs[0], xs[1], xs[2], 0])[2..] == [0] then Some(Ungroup([xs[0], xs[1], xs[2], 0])[..2]) else None
    else
      match FromSextets(xs[4..])
      case None => None
      case Some(rest) => Some(Ungroup(xs[..4]) + rest)
  }

  function Chars(xs: seq<sextet>): (s: string)
    ensures |s| == |xs|
  {
    seq(|xs|, i requires 0 <= i < |xs| => CharOf(xs[i]))
  }

  predicate AllSextets(s: string) {
    forall i :: 0 <= i < |s| ==> SextetOf(s[i]).Some?
  }

  function Unchars(s: string): (xs: seq<sextet>)
    requires AllSextets(s)
    ensures |xs| == |s|
  {
    seq(|s|, i requires 0 <= i < |s| => SextetOf(s[i]).value)
  }

  /** The decoder skips carriage returns and line feeds wherever they stand. */
  function Stripped(s: string): string {
    if s == "" then ""
    else (if s[0] == '\r' || s[0] == '\n' then "" else [s[0]]) + Stripped(s[1..])
  }

  function Encode(bs: seq<byte>): string { Chars(Sextets(bs)) }

  function Decode(s: string): Option<seq<byte>> {
    var t := Stripped(s);
    if AllSextets(t) then FromSextets(Unchars(t)) else None
  }

  lemma {:induction false} StripPlain(s: string)
    requires AllSextets(s)
    ensures Stripped(s) == s
  {
    if s != "" {
      assert SextetOf(s[0]).Some?;
      StripPlain(s[1..]);
    }
  }

  lemma {:induction false} StrippedLength(s: string)
    ensures |Stripped(s)| <= |s|
    ensures |Stripped(s)| == |s| <==> '\r' !in s && '\n' !in s
    ensures |Stripped(s)| == |s| ==> Stripped(s) == s
  {
    if s != "" {
      StrippedLength(s[1..]);
      assert s == [s[0]] + s[1..];
    }
  }

  lemma TwentyFourBits()
    ensures Bytes.Pow(3) == SixBits.Pow(4)
  {
    assert Bytes.Pow(1) == 0x100 && Bytes.Pow(2) == 0x1_0000;
    assert SixBits.Pow(1) == 0x40 && SixBits.Pow(2) == 0x1000 && SixBits.Pow(3) == 0x4_0000;
  }

  lemma GroupReads(bs: seq<byte>)
    requires |bs| == 3
    ensures Ungroup(Group(bs)) == bs
  {
    TwentyFourBits();
    WriteRead(bs, Bytes);
    ReadWritten(FromDigits(bs, Bytes), SixBits, 4);
  }

  lemma GroupWrites(xs: seq<sextet>)
    requires |xs| == 4
    ensures Group(Ungroup(xs)) == xs
  {
    TwentyFourBits();
    WriteRead(xs, SixBits);
    ReadWritten(FromDigits(xs, SixBits), Bytes, 3);
  }

  /** The last two digits of a number, base 64. */
  lemma LastSextets(v: nat)
    ensures ToDigits(v, SixBits, 4)[3] == v % 64 && ToDigits(v, SixBits, 4)[2] == v / 64 % 64
  {
    assert ToDigits(v, SixBits, 4) == ToDigits(v / 64, SixBits, 3) + [v % 64];
    assert ToDigits(v / 64, SixBits, 3) == ToDigits(v / 64 / 64, SixBits, 2) + [v / 64 % 64];
  }

  lemma ZeroBytes(x: byte, y: byte)
    ensures FromDigits([x, y, 0], Bytes) == 0x1_0000 * x + 0x100 * y
  {
    assert [x, y, 0][..2] == [x, y] && [x, y][..1] == [x] && [x][..0] == [];
    assert FromDigits([x], Bytes) == x;
    assert FromDigits([x, y], Bytes) == x * 256 + y;
  }

  lemma PaddedGroup(x: byte, y: byte)
    ensures Group([x, y, 0])[3] == 0
    ensures Group([x, 0, 0])[2..] == [0, 0]
  {
    hide ToDigits, FromDigits;
    ZeroBytes(x, y);
    LastSextets(0x1_0000 * x + 0x100 * y);
    ZeroBytes(x, 0);
    LastSextets(0x1_0000 * x);
    assert 0x1_0000 * x / 64 == 0x400 * x;
  }

  lemma ShortSextets(x: byte, y: byte)
    ensures Sextets([x]) == Group([x, 0, 0])[..2] && Sextets([x, y]) == Group([x, y, 0])[..3]
  {
    hide Group;
  }

  lemma TwoSextets(g: seq<sextet>)
    requires |g| == 4 && g[2..] == [0, 0]
    ensures FromSextets(g[..2]) == if Ungroup(g)[1..] == [0, 0] then Some(Ungroup(g)[..1]) else None
  {
    hide Ungroup;
    assert [g[0], g[1], 0, 0] == g;
  }

  lemma ThreeSextets(g: seq<sextet>)
    requires |g| == 4 && g[3] == 0
    ensures FromSextets(g[..3]) == if Ungroup(g)[2..] == [0] then Some(Ungroup(g)[..2]) else None
  {
    hide Ungroup;
    assert [g[0], g[1], g[2], 0] == g;
  }

  /** A short last group decodes to the bytes it was made from. */
  lemma DecodeShort(x: byte, y: byte)
    ensures FromSextets(Sextets([x])) == Some([x])
    ensures FromSextets(Sextets([x, y])) == Some([x, y])
  {
    hide Group, Ungroup, Sextets, FromSextets;
    PaddedGroup(x, y);
    GroupReads([x, 0, 0]);
    GroupReads([x, y, 0]);
    ShortSextets(x, y);
    TwoSextets(Group([x, 0, 0]));
    ThreeSextets(Group([x, y, 0]));
    assert [x, 0, 0][1..] == [0, 0] && [x, 0, 0][..1] == [x];
    assert [x, y, 0][2..] == [0] && [x, y, 0][..2] == [x, y];
  }

  lemma {:induction false} SextetsDecode(bs: seq<byte>)
    ensures FromSextets(Sextets(bs)) == Some(bs)
  {
    hide Group, Ungroup;
    if |bs| == 1 {
      DecodeShort(bs[0], 0);
      assert bs == [bs[0]];
    } else if |bs| == 2 {
      DecodeShort(bs[0], bs[1]);
      assert bs == [bs[0], bs[1]];
    } else if |bs| >= 3 {
      SextetsDecode(bs[3..]);
      GroupReads(bs[..3]);
      assert Sextets(bs)[..4] == Group(bs[..3]) && Sextets(bs)[4..] == Sextets(bs[3..]);
      assert bs == bs[..3] + bs[3..];
    }
  }

  lemma EncodedShort(xs: seq<sextet>)
    requires 2 <= |xs| < 4 && FromSextets(xs).Some?
    ensures Sextets(FromSextets(xs).value) == xs
  {
    hide Group, Ungroup, Sextets, FromSextets;
    var padded := if |xs| == 2 then xs + [0, 0] else xs + [0];
    GroupWrites(padded);
    var bs := Ungroup(padded);
    ShortSextets(bs[0], bs[1]);
    assert xs == padded[..|xs|];
    if |xs| == 2 {
      TwoSextets(padded);
      assert bs == [bs[0], 0, 0] && bs[..1] == [bs[0]];
    } else {
      ThreeSextets(padded);
      assert bs == [bs[0], bs[1], 0] && bs[..2] == [bs[0], bs[1]];
    }
  }

  lemma {:induction false} DecodedEncodes(xs: seq<sextet>)
    requires FromSextets(xs).Some?
    ensures Sextets(FromSextets(xs).value) == xs
  {
    hide Group, Ungroup;
    if |xs| >= 4 {
      DecodedEncodes(xs[4..]);
      GroupWrites(xs[..4]);
      var head, rest := Ungroup(xs[..4]), FromSextets(xs[4..]).value;
      assert (head + rest)[..3] == head && (head + rest)[3..] == rest;
      assert xs == xs[..4] + xs[4..];
    } else if |xs| >= 2 {
      EncodedShort(xs);
    }
  }

  lemma CharsInvert(xs: seq<sextet>)
    ensures AllSextets(Chars(xs)) && Unchars(Chars(xs)) == xs
  {
    forall i | 0 <= i < |xs| ensures SextetOf(Chars(xs)[i]) == Some(xs[i]) {
      CharsAreSextets(xs[i], Chars(xs)[i]);
    }
  }

  lemma UncharsInvert(s: string)
    requires AllSextets(s)
    ensures Chars(Unchars(s)) == s
  {
    forall i | 0 <= i < |s| ensures CharOf(SextetOf(s[i]).value) == s[i] {
      CharsAreSextets(SextetOf(s[i]).value, s[i]);
    }
  }

  /** A text decodes to `bs` exactly when, line breaks aside, it is the encoding of `bs`. */
  lemma DecodesIff(s: string, bs: seq<byte>)
    ensures Decode(s) == Some(bs) <==> Stripped(s) == Encode(bs)
  {
    var t := Stripped(s);
    SextetsDecode(bs);
    CharsInvert(Sextets(bs));
    if Decode(s) == Some(bs) {
      DecodedEncodes(Unchars(t));
      UncharsInvert(t);
    }
  }

  lemma EncodedDecodes(bs: seq<byte>)
    ensures Decode(Encode(bs)) == Some(bs)
  {
    CharsInvert(Sextets(bs));
    StripPlain(Encode(bs));
    DecodesIff(Encode(bs), bs);
  }

  lemma EncodedHas(bs: seq<byte>, c: char)
    requires c in Encode(bs)
    ensures SextetOf(c).Some?
  {
    CharsInvert(Sextets(bs));
  }
}
