/** The code a person types to claim a pairing (internal/connectors/service.go). */
module UserCodes {
  import opened Positional
  import opened RandomSource

  const ALPHABET: string := "0123456789ABCDEFGHJKMNPQRSTVWXYZ"

  datatype Issued = Printed(code: string) | SourceFailed

  function Letters(ds: seq<nat>): (s: string)
    requires IsDigits(ds, Base32)
    ensures |s| == |ds|
  {
    seq(|ds|, i requires 0 <= i < |ds| => ALPHABET[ds[i]])
  }

  /** The eight letters for five random bytes, before the dash is put in. */
  function Plain(bytes: seq<byte>): (s: string)
    ensures |s| == 8
  {
    Letters(ToDigits(FromDigits(bytes, Bytes), Base32, 8))
  }

  function Print(bytes: seq<byte>): string {
    Plain(bytes)[..4] + "-" + Plain(bytes)[4..]
  }

  /** The digits still to be written are those of the value that is left. */
  ghost predicate Remaining(whole: seq<nat>, value: nat, n: nat) {
    n <= |whole| && whole[..n] == ToDigits(value, Base32, n)
  }

  lemma TakeDigit(whole: seq<nat>, value: nat, n: nat)
    requires n > 0 && Remaining(whole, value, n)
    ensures whole[n - 1] == value % 32 && Remaining(whole, value / 32, n - 1)
  {
    var shorter := ToDigits(value / 32, Base32, n - 1);
    assert whole[..n] == shorter + [value % 32];
    assert whole[..n][n - 1] == value % 32;
    assert whole[..n - 1] == whole[..n][..n - 1] == shorter;
  }

  method IssueUserCode(random: Reader) returns (r: Issued)
    modifies random
    ensures r == if |old(random.pending)| < 5 then SourceFailed else Printed(Print(old(random.pending)[..5]))
    ensures |old(random.pending)| >= 5 ==> random.pending == old(random.pending)[5..]
  {
    var ok, bytes := random.ReadFull(5);
    if !ok { return SourceFailed; }
    var value := FromDigits(bytes, Bytes);
    ghost var whole := ToDigits(value, Base32, 8);
    assert whole[..8] == whole;
    var encoded := new char[8];
    var index := 7;
    while index >= 0
      invariant -1 <= index <= 7
      invariant Remaining(whole, value, index + 1)
      invariant forall k :: index < k < 8 ==> encoded[k] == ALPHABET[whole[k]]
      modifies encoded
    {
      TakeDigit(whole, value, index + 1);
      encoded[index] := ALPHABET[value % 32];
      value := value / 32;
      index := index - 1;
    }
    assert encoded[..] == Letters(whole) == Plain(bytes);
    assert encoded[..4] == encoded[..][..4] && encoded[4..] == encoded[..][4..];
    r := Printed(encoded[..4] + "-" + encoded[4..]);
  }

  // ---------------------------------------------------------------- bijection

  predicate InAlphabet(s: string) {
    forall i :: 0 <= i < |s| ==> s[i] in ALPHABET
  }

  /** The alphabet in order, which skips I, L, O and U. */
  function LetterAt(i: nat): char
    requires i < 32
  {
    if i < 10 then '0' + i as char
    else if i < 18 then 'A' + (i - 10) as char
    else if i < 20 then 'J' + (i - 18) as char
    else if i < 22 then 'M' + (i - 20) as char
    else if i < 27 then 'P' + (i - 22) as char
    else 'V' + (i - 27) as char
  }

  lemma AlphabetIsOrdered(i: nat)
    requires i < 32
    ensures ALPHABET[i] == LetterAt(i)
  {
  }

  lemma AlphabetIsInjective(i: nat, j: nat)
    requires i < 32 && j < 32 && ALPHABET[i] == ALPHABET[j]
    ensures i == j
  {
    AlphabetIsOrdered(i);
    AlphabetIsOrdered(j);
  }

  ghost function DigitOf(c: char): (d: nat)
    requires c in ALPHABET
    ensures d < 32 && ALPHABET[d] == c
  {
    var d: nat :| d < 32 && ALPHABET[d] == c; d
  }

  /** The five bytes behind eight letters. */
  ghost function BytesOf(s: string): seq<nat>
    requires |s| == 8 && InAlphabet(s)
  {
    ToDigits(FromDigits(seq(8, i requires 0 <= i < 8 => DigitOf(s[i])), Base32), Bytes, 5)
  }

  lemma FortyBits()
    ensures Bytes.Pow(5) == Base32.Pow(8)
  {
    assert Bytes.Pow(1) == 0x100 && Bytes.Pow(2) == 0x1_0000 && Bytes.Pow(3) == 0x100_0000;
    assert Bytes.Pow(4) == 0x1_0000_0000;
    assert Base32.Pow(1) == 0x20 && Base32.Pow(2) == 0x400 && Base32.Pow(3) == 0x8000;
    assert Base32.Pow(4) == 0x10_0000 && Base32.Pow(5) == 0x200_0000 && Base32.Pow(6) == 0x4000_0000;
    assert Base32.Pow(7) == 0x8_0000_0000;
  }

  /** The bytes can be read back from the letters: two draws never print the same code. */
  lemma LettersDetermineBytes(bytes: seq<byte>)
    requires |bytes| == 5
    ensures InAlphabet(Plain(bytes)) && BytesOf(Plain(bytes)) == bytes
  {
    WriteRead(bytes, Bytes);
    FortyBits();
    var v := FromDigits(bytes, Bytes);
    var ds := ToDigits(v, Base32, 8);
    ReadWritten(v, Base32, 8);
    var s := Plain(bytes);
    forall i | 0 <= i < 8 ensures s[i] in ALPHABET && DigitOf(s[i]) == ds[i] {
      assert s[i] == ALPHABET[ds[i]];
      AlphabetIsInjective(DigitOf(s[i]), ds[i]);
    }
    assert seq(8, i requires 0 <= i < 8 => DigitOf(s[i])) == ds;
  }

  /** Every eight letters of the alphabet are printed by some draw. */
  lemma BytesDetermineLetters(s: string)
    requires |s| == 8 && InAlphabet(s)
    ensures |BytesOf(s)| == 5 && IsDigits(BytesOf(s), Bytes)
    ensures Plain(BytesOf(s)) == s
  {
    var ds: seq<nat> := seq(8, i requires 0 <= i < 8 => DigitOf(s[i]));
    WriteRead(ds, Base32);
    FortyBits();
    ReadWritten(FromDigits(ds, Base32), Bytes, 5);
    assert ToDigits(FromDigits(BytesOf(s), Bytes), Base32, 8) == ds;
  }

  // ---------------------------------------------------------------- normalization

  /** Unicode White_Space, which strings.TrimSpace removes from both ends. */
  predicate IsSpace(c: char) {
    || '\t' <= c <= '\r' || c == ' ' || c == '\U{85}' || c == '\U{A0}' || c == '\U{1680}'
    || '\U{2000}' <= c <= '\U{200A}' || c == '\U{2028}' || c == '\U{2029}'
    || c == '\U{202F}' || c == '\U{205F}' || c == '\U{3000}'
  }

  function TrimLeft(s: string): string {
    if s != [] && IsSpace(s[0]) then TrimLeft(s[1..]) else s
  }

  function TrimRight(s: string): string {
    if s != [] && IsSpace(s[|s| - 1]) then TrimRight(s[..|s| - 1]) else s
  }

  function Trim(s: string): string { TrimRight(TrimLeft(s)) }

  function WithoutDashes(s: string): string {
    if s == [] then []
    else (if s[0] == '-' then [] else [s[0]]) + WithoutDashes(s[1..])
  }

  /** Upper case of the ASCII letters and of the two other letters, the dotless i and the long s,
      whose upper case is an ASCII letter; other characters stay as they are. */
  function UpperChar(c: char): char {
    if 'a' <= c <= 'z' then ((c as int) - 32) as char
    else if c == '\U{131}' then 'I'
    else if c == '\U{17F}' then 'S'
    else c
  }

  function Upper(s: string): (r: string)
    ensures |r| == |s|
  {
    seq(|s|, i requires 0 <= i < |s| => UpperChar(s[i]))
  }

  function Normalize(s: string): string { Upper(WithoutDashes(Trim(s))) }

  lemma {:induction false} WithoutDashesConcat(a: string, b: string)
    ensures WithoutDashes(a + b) == WithoutDashes(a) + WithoutDashes(b)
  {
    if a == [] {
      assert a + b == b;
    } else {
      var c := if a[0] == '-' then [] else [a[0]];
      WithoutDashesConcat(a[1..], b);
      assert (a + b)[1..] == a[1..] + b;
      assert WithoutDashes(a + b) == c + (WithoutDashes(a[1..]) + WithoutDashes(b));
    }
  }

  lemma {:induction false} NoDashes(s: string)
    requires '-' !in s
    ensures WithoutDashes(s) == s
  {
    if s != [] {
      assert forall c :: c in s[1..] ==> c in s;
      NoDashes(s[1..]);
    }
  }

  lemma AlphabetIsNormal(s: string)
    requires InAlphabet(s)
    ensures '-' !in s && Upper(s) == s
    ensures forall i :: 0 <= i < |s| ==> !IsSpace(s[i])
  {
    assert forall i: nat :: i < 32 ==> ALPHABET[i] != '-' && !IsSpace(ALPHABET[i]) && UpperChar(ALPHABET[i]) == ALPHABET[i];
    forall i | 0 <= i < |s| ensures s[i] != '-' && !IsSpace(s[i]) && UpperChar(s[i]) == s[i] {
      var d := DigitOf(s[i]);
    }
  }

  lemma NothingToTrim(s: string)
    requires s != [] && !IsSpace(s[0]) && !IsSpace(s[|s| - 1])
    ensures Trim(s) == s
  {
  }

  /** A printed code, typed back as shown, is looked up under the eight letters it stands for. */
  lemma PrintedNormalizes(bytes: seq<byte>)
    requires |bytes| == 5
    ensures Normalize(Print(bytes)) == Plain(bytes)
  {
    LettersDetermineBytes(bytes);
    DashedNormalizes(Plain(bytes), 4);
  }

  lemma LeadingDash(s: string)
    ensures WithoutDashes("-" + s) == WithoutDashes(s)
  {
    assert ("-" + s)[1..] == s;
  }

  lemma DashDropped(left: string, right: string)
    requires '-' !in left && '-' !in right
    ensures WithoutDashes(left + "-" + right) == left + right
  {
    hide WithoutDashes;
    assert left + "-" + right == left + ("-" + right);
    WithoutDashesConcat(left, "-" + right);
    LeadingDash(right);
    NoDashes(left);
    NoDashes(right);
  }

  lemma DashedNormalizes(s: string, k: nat)
    requires InAlphabet(s) && 0 < k < |s|
    ensures Normalize(s[..k] + "-" + s[k..]) == s
  {
    AlphabetIsNormal(s);
    DashDropped(s[..k], s[k..]);
    NothingToTrim(s[..k] + "-" + s[k..]);
    assert s[..k] + s[k..] == s;
  }

  lemma {:induction false} UpperKeepsShape(s: string)
    ensures WithoutDashes(Upper(s)) == Upper(WithoutDashes(s))
    ensures Trim(Upper(s)) == Upper(Trim(s))
    ensures Upper(Upper(s)) == Upper(s)
  {
    UpperDashes(s);
    UpperLeft(s);
    UpperRight(TrimLeft(s));
  }

  lemma {:induction false} UpperDashes(s: string)
    ensures WithoutDashes(Upper(s)) == Upper(WithoutDashes(s))
  {
    if s != [] {
      UpperDashes(s[1..]);
      assert Upper(s)[1..] == Upper(s[1..]);
      assert Upper(WithoutDashes(s)) == (if s[0] == '-' then [] else [UpperChar(s[0])]) + Upper(WithoutDashes(s[1..]));
    }
  }

  lemma {:induction false} UpperLeft(s: string)
    ensures TrimLeft(Upper(s)) == Upper(TrimLeft(s))
  {
    if s != [] {
      assert Upper(s)[1..] == Upper(s[1..]);
      UpperLeft(s[1..]);
    }
  }

  lemma {:induction false} UpperRight(s: string)
    ensures TrimRight(Upper(s)) == Upper(TrimRight(s))
  {
    if s != [] {
      assert Upper(s)[..|s| - 1] == Upper(s[..|s| - 1]);
      UpperRight(s[..|s| - 1]);
    }
  }

  lemma {:induction false} DashesGone(s: string)
    ensures '-' !in WithoutDashes(s)
  {
    if s != [] { DashesGone(s[1..]); }
  }

  lemma {:induction false} TrimRightShrinks(s: string)
    ensures |TrimRight(s)| <= |s| && TrimRight(s) == s[..|TrimRight(s)|]
  {
    if s != [] && IsSpace(s[|s| - 1]) { TrimRightShrinks(s[..|s| - 1]); }
  }

  lemma {:induction false} TrimLeftShrinks(s: string)
    ensures |TrimLeft(s)| <= |s|
  {
    if s != [] && IsSpace(s[0]) { TrimLeftShrinks(s[1..]); }
  }

  lemma TrimIsIdentityIff(s: string)
    ensures Trim(s) == s <==> s == [] || (!IsSpace(s[0]) && !IsSpace(s[|s| - 1]))
  {
    TrimRightShrinks(TrimLeft(s));
    if s != [] {
      if IsSpace(s[0]) {
        TrimLeftShrinks(s[1..]);
      } else if IsSpace(s[|s| - 1]) {
        TrimRightShrinks(s[..|s| - 1]);
      }
    }
  }

  /** The first character that is not a dash, and the last. */
  ghost predicate FirstShown(t: string, i: nat) {
    i < |t| && t[i] != '-' && forall j :: 0 <= j < i ==> t[j] == '-'
  }

  ghost predicate LastShown(t: string, i: nat) {
    i < |t| && t[i] != '-' && forall j :: i < j < |t| ==> t[j] == '-'
  }

  lemma {:induction false} OnlyDashes(t: string)
    requires forall j :: 0 <= j < |t| ==> t[j] == '-'
    ensures WithoutDashes(t) == []
  {
    if t != [] { OnlyDashes(t[1..]); }
  }

  lemma ShownStays(t: string, i: nat)
    requires i < |t| && t[i] != '-'
    ensures WithoutDashes(t) == WithoutDashes(t[..i]) + [t[i]] + WithoutDashes(t[i + 1..])
  {
    assert t == t[..i] + t[i..];
    WithoutDashesConcat(t[..i], t[i..]);
    assert t[i..][1..] == t[i + 1..];
  }

  lemma ShownEnds(t: string, i: nat)
    ensures FirstShown(t, i) ==> WithoutDashes(t) != [] && WithoutDashes(t)[0] == t[i]
    ensures LastShown(t, i) ==> WithoutDashes(t) != [] && WithoutDashes(t)[|WithoutDashes(t)| - 1] == t[i]
  {
    if i < |t| && t[i] != '-' {
      ShownStays(t, i);
      if FirstShown(t, i) { OnlyDashes(t[..i]); }
      if LastShown(t, i) { OnlyDashes(t[i + 1..]); }
    }
  }

  lemma SomethingShows(t: string) returns (first: nat, last: nat)
    requires WithoutDashes(t) != []
    ensures FirstShown(t, first) && LastShown(t, last)
  {
    first, last := 0, |t| - 1;
    while t[first] == '-'
      invariant first < |t| && WithoutDashes(t[first..]) != [] && forall j :: 0 <= j < first ==> t[j] == '-'
      decreases |t| - first
    {
      assert t[first..][1..] == t[first + 1..];
      first := first + 1;
    }
    while t[last] == '-'
      invariant first <= last < |t| && forall j :: last < j < |t| ==> t[j] == '-'
      decreases last
    {
      last := last - 1;
    }
  }

  /** Neither the first nor the last character of `t` that is not a dash is white space. */
  ghost predicate CleanEnds(t: string) {
    forall i: nat :: FirstShown(t, i) || LastShown(t, i) ==> !IsSpace(t[i])
  }

  lemma CleanEndsShow(t: string)
    ensures var bare := WithoutDashes(t);
      CleanEnds(t) <==> bare == [] || (!IsSpace(bare[0]) && !IsSpace(bare[|bare| - 1]))
  {
    hide IsSpace, WithoutDashes;
    forall i: nat
      ensures FirstShown(t, i) ==> WithoutDashes(t) != [] && WithoutDashes(t)[0] == t[i]
      ensures LastShown(t, i) ==> WithoutDashes(t) != [] && WithoutDashes(t)[|WithoutDashes(t)| - 1] == t[i]
    {
      ShownEnds(t, i);
    }
    if WithoutDashes(t) != [] {
      var first, last := SomethingShows(t);
    }
  }

  /** Normalizing twice is normalizing once exactly when the first and the last character of the
      trimmed text, not counting dashes, are no white space. */
  lemma NormalizeIsIdempotentIff(s: string)
    ensures Normalize(Normalize(s)) == Normalize(s) <==> CleanEnds(Trim(s))
  {
    CleanEndsShow(Trim(s));
    hide CleanEnds;
    NormalizeAgain(s);
  }

  lemma NormalizeAgain(s: string)
    ensures var bare := WithoutDashes(Trim(s));
      Normalize(Normalize(s)) == Normalize(s) <==>
        bare == [] || (!IsSpace(bare[0]) && !IsSpace(bare[|bare| - 1]))
  {
    hide WithoutDashes, Upper;
    var bare := WithoutDashes(Trim(s));
    UpperKeepsShape(bare);
    TrimIsIdentityIff(bare);
    DashesGone(Trim(s));
    TrimRightShrinks(TrimLeft(bare));
    assert '-' !in Trim(bare) by {
      TrimLeftKeeps(bare);
    }
    NoDashes(Trim(bare));
    UpperKeepsShape(Trim(bare));
    assert Normalize(s) == Upper(bare);
    assert Trim(Upper(bare)) == Upper(Trim(bare));
    assert WithoutDashes(Upper(Trim(bare))) == Upper(WithoutDashes(Trim(bare)));
    assert Normalize(Normalize(s)) == Upper(Trim(bare));
    if |Trim(bare)| == |bare| {
      TrimSameLength(bare);
    }
  }

  lemma {:induction false} TrimLeftKeeps(s: string)
    ensures forall c :: c in TrimLeft(s) ==> c in s
  {
    if s != [] && IsSpace(s[0]) { TrimLeftKeeps(s[1..]); }
  }

  lemma TrimSameLength(s: string)
    requires |Trim(s)| == |s|
    ensures Trim(s) == s
  {
    TrimRightShrinks(TrimLeft(s));
    TrimLeftShrinks(s);
    if s != [] && IsSpace(s[0]) { TrimLeftShrinks(s[1..]); }
  }

  lemma NormalizeTwiceDiffers()
    ensures Normalize("- A") == " A" && Normalize(Normalize("- A")) == "A"
  {
    assert Trim("- A") == "- A";
    assert WithoutDashes("- A") == " A" by { WithoutDashesConcat("-", " A"); NoDashes(" A"); assert "- A" == "-" + " A"; }
    assert Normalize("- A") == " A";
    assert TrimLeft(" A") == "A" by { assert " A"[1..] == "A"; }
    assert Trim(" A") == "A";
    NoDashes("A");
    assert Upper("A") == "A";
  }
}
