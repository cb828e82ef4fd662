/** The stored form of an Argon2id password hash (internal/identity/password.go). */
module PasswordHash {
  import opened RandomSource
  import opened Base64

  const ARGON_VERSION: nat := 19
  const MAXIMUM_STORED_MEMORY: nat := 256 * 1024
  const MAX_UINT32: nat := 0xFFFF_FFFF
  const MAX_UINT8: nat := 0xFF
  const MAX_INT64: nat := 0x7FFF_FFFF_FFFF_FFFF

  datatype Parameters = Parameters(time: nat, memory: nat, parallelism: nat)

  datatype Parsed = Parsed(parameters: Parameters, salt: seq<byte>, key: seq<byte>)

  // ---------------------------------------------------------------- decimal numbers

  function Digit(d: nat): char
    requires d < 10
  {
    (d + '0' as int) as char
  }

  predicate IsDigit(c: char) { '0' <= c <= '9' }

  function PrintNat(n: nat): string {
    if n < 10 then [Digit(n)] else PrintNat(n / 10) + [Digit(n % 10)]
  }

  /** The run of digits a text starts with. */
  function DigitRun(s: string): nat {
    if s != "" && IsDigit(s[0]) then 1 + DigitRun(s[1..]) else 0
  }

  function ReadNat(s: string): nat
    requires forall c :: c in s ==> IsDigit(c)
  {
    if s == "" then 0
    else
      assert IsDigit(s[|s| - 1]);
      ReadNat(s[..|s| - 1]) * 10 + (s[|s| - 1] as int - '0' as int)
  }

  lemma {:induction false} DigitRunIsDigits(s: string)
    ensures DigitRun(s) <= |s|
    ensures forall c :: c in s[..DigitRun(s)] ==> IsDigit(c)
  {
    if s != "" && IsDigit(s[0]) {
      DigitRunIsDigits(s[1..]);
      assert s[..DigitRun(s)] == [s[0]] + s[1..][..DigitRun(s[1..])];
    }
  }

  lemma {:induction false} DigitRunOfConcat(a: string, b: string)
    requires forall c :: c in a ==> IsDigit(c)
    requires b == "" || !IsDigit(b[0])
    ensures DigitRun(a + b) == |a|
  {
    if a == "" {
      assert a + b == b;
    } else {
      assert a[0] in a;
      assert (a + b)[1..] == a[1..] + b;
      DigitRunOfConcat(a[1..], b);
    }
  }

  lemma {:induction false} PrintedNatReads(n: nat)
    ensures PrintNat(n) != ""
    ensures forall c :: c in PrintNat(n) ==> IsDigit(c)
    ensures ReadNat(PrintNat(n)) == n
  {
    if n >= 10 {
      PrintedNatReads(n / 10);
      assert PrintNat(n)[..|PrintNat(n)| - 1] == PrintNat(n / 10);
    }
  }

  lemma {:induction false} PrintedNatLeads(n: nat)
    requires n > 0
    ensures PrintNat(n) != "" && PrintNat(n)[0] != '0'
  {
    if n >= 10 { PrintedNatLeads(n / 10); }
  }

  /** Without a leading zero there is one way to write a number. */
  lemma {:induction false} ReadNatPrints(s: string)
    requires s != "" && s[0] != '0' && forall c :: c in s ==> IsDigit(c)
    ensures ReadNat(s) > 0 && PrintNat(ReadNat(s)) == s
  {
    var head, last := s[..|s| - 1], s[|s| - 1];
    assert s == head + [last];
    assert IsDigit(last);
    if head != "" {
      ReadNatPrints(head);
    } else {
      assert ReadNat(head) == 0;
    }
  }

  // ---------------------------------------------------------------- scanning

  /** White space Go's scanner skips in front of a number; a line break stops the scan. */
  predicate IsScanSpace(c: char) {
    || c == '\t' || c == '\U{0B}' || c == '\U{0C}' || c == '\r' || c == ' ' || c == '\U{85}' || c == '\U{A0}'
    || c == '\U{1680}' || '\U{2000}' <= c <= '\U{200A}' || c == '\U{2028}' || c == '\U{2029}'
    || c == '\U{202F}' || c == '\U{205F}' || c == '\U{3000}'
  }

  function SkipSpace(s: string): (r: string)
    ensures |r| <= |s|
  {
    if s != "" && IsScanSpace(s[0]) then SkipSpace(s[1..]) else s
  }

  /** One scanned item: its value and the text behind it. */
  datatype Scan = NoScan | Scanned(value: int, rest: string)

  /** `%d` into an unsigned variable of the given maximum. */
  function ScanUnsigned(s: string, maximum: nat): Scan {
    var t := SkipSpace(s);
    DigitRunIsDigits(t);
    var n := DigitRun(t);
    if n == 0 || ReadNat(t[..n]) > maximum then NoScan else Scanned(ReadNat(t[..n]), t[n..])
  }

  /** `%d` into an int: a sign may precede the digits. */
  function ScanSigned(s: string): Scan {
    var t := SkipSpace(s);
    var negative := t != "" && t[0] == '-';
    var u := if t != "" && (t[0] == '-' || t[0] == '+') then t[1..] else t;
    DigitRunIsDigits(u);
    var n := DigitRun(u);
    if n == 0 then NoScan
    else
      var v: int := ReadNat(u[..n]);
      if v > MAX_INT64 + (if negative then 1 else 0) then NoScan
      else Scanned(if negative then 0 - v else v, u[n..])
  }

  predicate StartsWith(s: string, prefix: string) { prefix <= s }

  // ---------------------------------------------------------------- the stored string

  function Split(s: string, sep: char): (parts: seq<string>)
    ensures parts != []
  {
    if s == "" then [""]
    else if s[0] == sep then [""] + Split(s[1..], sep)
    else
      var rest := Split(s[1..], sep);
      [[s[0]] + rest[0]] + rest[1..]
  }

  lemma {:induction false} SplitNone(a: string, sep: char)
    requires sep !in a
    ensures Split(a, sep) == [a]
  {
    if a != "" {
      assert a[0] in a;
      SplitNone(a[1..], sep);
      assert a == [a[0]] + a[1..];
    }
  }

  lemma {:induction false} SplitOne(a: string, sep: char, b: string)
    requires sep !in a
    ensures Split(a + [sep] + b, sep) == [a] + Split(b, sep)
  {
    var whole := a + [sep] + b;
    if a == "" {
      assert whole == [sep] + b;
      assert whole[1..] == b;
    } else {
      assert a[0] in a;
      SplitOne(a[1..], sep, b);
      assert whole[1..] == a[1..] + [sep] + b;
      assert [a[0]] + a[1..] == a;
    }
  }

  function Joined(parts: seq<string>, sep: char): string
    requires parts != []
  {
    if |parts| == 1 then parts[0] else parts[0] + [sep] + Joined(parts[1..], sep)
  }

  lemma {:induction false} SplitJoined(parts: seq<string>, sep: char)
    requires parts != [] && forall i :: 0 <= i < |parts| ==> sep !in parts[i]
    ensures Split(Joined(parts, sep), sep) == parts
  {
    if |parts| == 1 {
      SplitNone(parts[0], sep);
    } else {
      SplitOne(parts[0], sep, Joined(parts[1..], sep));
      SplitJoined(parts[1..], sep);
    }
  }

  function PrintVersion(): string { "v=" + PrintNat(ARGON_VERSION) }

  function PrintParameters(p: Parameters): string {
    "m=" + (PrintNat(p.memory) + (",t=" + (PrintNat(p.time) + (",p=" + PrintNat(p.parallelism)))))
  }

  function PrintedParts(p: Parameters, salt: seq<byte>, key: seq<byte>): seq<string> {
    ["", "argon2id", PrintVersion(), PrintParameters(p), Encode(salt), Encode(key)]
  }

  /** "$argon2id$v=..$m=..,t=..,p=..$salt$key" */
  function Print(p: Parameters, salt: seq<byte>, key: seq<byte>): string {
    Joined(PrintedParts(p, salt, key), '$')
  }

  function ScanVersion(s: string): Option<int> {
    if !StartsWith(s, "v=") then None
    else
      var v := ScanSigned(s[2..]);
      if v.NoScan? then None else Some(v.value)
  }

  /** "m=%d,t=%d,p=%d"; text behind the last number is not looked at. */
  function ScanParameters(s: string): Option<Parameters> {
    if !StartsWith(s, "m=") then None
    else
      var m := ScanUnsigned(s[2..], MAX_UINT32);
      if m.NoScan? || !StartsWith(m.rest, ",t=") then None
      else
        var t := ScanUnsigned(m.rest[3..], MAX_UINT32);
        if t.NoScan? || !StartsWith(t.rest, ",p=") then None
        else
          var p := ScanUnsigned(t.rest[3..], MAX_UINT8);
          if p.NoScan? then None else Some(Parameters(t.value, m.value, p.value))
  }

  predicate AcceptableParameters(p: Parameters) {
    8 * 1024 <= p.memory <= MAXIMUM_STORED_MEMORY && 1 <= p.time <= 10 && 1 <= p.parallelism <= 32
  }

  predicate AcceptableLength(bs: seq<byte>) { 16 <= |bs| <= 64 }

  function Parse(encoded: string): Option<Parsed> {
    var parts := Split(encoded, '$');
    if |parts| != 6 || parts[0] != "" || parts[1] != "argon2id" then None
    else if ScanVersion(parts[2]) != Some(ARGON_VERSION) then None
    else
      var p := ScanParameters(parts[3]);
      if p.None? || !AcceptableParameters(p.value) then None
      else
        var salt := Decode(parts[4]);
        if salt.None? || !AcceptableLength(salt.value) then None
        else
          var key := Decode(parts[5]);
          if key.None? || !AcceptableLength(key.value) then None
          else Some(Parsed(p.value, salt.value, key.value))
  }

  // ---------------------------------------------------------------- round trip

  lemma ScanDigits(a: string, rest: string, maximum: nat)
    requires a != "" && (forall c :: c in a ==> IsDigit(c)) && (rest == "" || !IsDigit(rest[0]))
    ensures ScanUnsigned(a + rest, maximum) == if ReadNat(a) > maximum then NoScan else Scanned(ReadNat(a), rest)
  {
    DigitRunOfConcat(a, rest);
    assert a[0] in a;
    assert SkipSpace(a + rest) == a + rest;
    assert (a + rest)[..|a|] == a && (a + rest)[|a|..] == rest;
  }

  lemma ScanPrinted(n: nat, rest: string, maximum: nat)
    requires n <= maximum && (rest == "" || !IsDigit(rest[0]))
    ensures ScanUnsigned(PrintNat(n) + rest, maximum) == Scanned(n, rest)
  {
    PrintedNatReads(n);
    ScanDigits(PrintNat(n), rest, maximum);
  }

  lemma ScanVersionDigits(a: string)
    requires a != "" && forall c :: c in a ==> IsDigit(c)
    ensures ScanVersion("v=" + a) == if ReadNat(a) > MAX_INT64 then None else Some(ReadNat(a))
  {
    DigitRunOfConcat(a, "");
    assert a + "" == a && a[..|a|] == a;
    assert a[0] in a;
    assert ("v=" + a)[2..] == a;
    assert SkipSpace(a) == a;
  }

  lemma ScanPrintedVersion()
    ensures ScanVersion(PrintVersion()) == Some(ARGON_VERSION)
  {
    PrintedNatReads(ARGON_VERSION);
    ScanVersionDigits(PrintNat(ARGON_VERSION));
  }

  lemma DropPrefix(a: string, b: string)
    ensures StartsWith(a + b, a) && (a + b)[|a|..] == b
  {
  }

  /** The printed parameters are read back, whatever text other than a digit follows them. */
  lemma ScanPrintedParameters(p: Parameters, extra: string)
    requires p.memory <= MAX_UINT32 && p.time <= MAX_UINT32 && p.parallelism <= MAX_UINT8
    requires extra == "" || !IsDigit(extra[0])
    ensures ScanParameters(PrintParameters(p) + extra) == Some(p)
  {
    var p3 := PrintNat(p.parallelism) + extra;
    var t3 := PrintNat(p.time) + (",p=" + p3);
    var m3 := PrintNat(p.memory) + (",t=" + t3);
    ScanPrinted(p.parallelism, extra, MAX_UINT8);
    DropPrefix(",p=", p3);
    ScanPrinted(p.time, ",p=" + p3, MAX_UINT32);
    DropPrefix(",t=", t3);
    ScanPrinted(p.memory, ",t=" + t3, MAX_UINT32);
    DropPrefix("m=", m3);
    Reassociate(p, extra);
  }

  lemma Reassociate(p: Parameters, extra: string)
    ensures PrintParameters(p) + extra ==
      "m=" + (PrintNat(p.memory) + (",t=" + (PrintNat(p.time) + (",p=" + (PrintNat(p.parallelism) + extra)))))
  {
  }

  lemma NoDollars(p: Parameters, bs: seq<byte>)
    ensures '$' !in PrintVersion() && '$' !in PrintParameters(p) && '$' !in Encode(bs)
  {
    PrintedNatReads(ARGON_VERSION);
    PrintedNatReads(p.memory);
    PrintedNatReads(p.time);
    PrintedNatReads(p.parallelism);
    if '$' in Encode(bs) { EncodedHas(bs, '$'); }
  }

  lemma SplitPrinted(p: Parameters, salt: seq<byte>, key: seq<byte>)
    ensures Split(Print(p, salt, key), '$') == PrintedParts(p, salt, key)
  {
    NoDollars(p, salt);
    NoDollars(p, key);
    SplitJoined(PrintedParts(p, salt, key), '$');
  }

  /** Reading a printed hash gives back exactly what was printed, precisely for the parameters
      and lengths the reader accepts. */
  lemma ParsePrintedIff(p: Parameters, salt: seq<byte>, key: seq<byte>)
    requires p.memory <= MAX_UINT32 && p.time <= MAX_UINT32 && p.parallelism <= MAX_UINT8
    ensures Parse(Print(p, salt, key)) == Some(Parsed(p, salt, key)) <==>
      AcceptableParameters(p) && AcceptableLength(salt) && AcceptableLength(key)
  {
    SplitPrinted(p, salt, key);
    ScanPrintedVersion();
    ScanPrintedParameters(p, "");
    assert PrintParameters(p) + "" == PrintParameters(p);
    EncodedDecodes(salt);
    EncodedDecodes(key);
  }

  /** Whatever is accepted is in range, and its salt and key parts are the canonical encodings
      once line breaks are dropped: no two byte strings share an accepted text. */
  lemma ParsedIsCanonical(encoded: string)
    requires Parse(encoded).Some?
    ensures var r := Parse(encoded).value; var parts := Split(encoded, '$');
      && AcceptableParameters(r.parameters) && AcceptableLength(r.salt) && AcceptableLength(r.key)
      && |parts| == 6 && Stripped(parts[4]) == Encode(r.salt) && Stripped(parts[5]) == Encode(r.key)
  {
    var r, parts := Parse(encoded).value, Split(encoded, '$');
    DecodesIff(parts[4], r.salt);
    DecodesIff(parts[5], r.key);
  }

  // ---------------------------------------------------------------- which accepted texts are printed ones

  /** A letter, an equals sign and a number: no sign, no blank, no leading zero, nothing behind it. */
  predicate Tidy(field: string) {
    |field| > 2 && field[2] != '0' && forall i :: 2 <= i < |field| ==> IsDigit(field[i])
  }

  predicate AllTidy(fields: seq<string>) {
    forall i :: 0 <= i < |fields| ==> Tidy(fields[i])
  }

  predicate LineBreak(s: string) { '\r' in s || '\n' in s }

  lemma {:induction false} JoinedSplit(s: string, sep: char)
    ensures Joined(Split(s, sep), sep) == s
  {
    if s != "" {
      JoinedSplit(s[1..], sep);
      assert s == [s[0]] + s[1..];
    }
  }

  lemma TidyField(name: string, n: nat)
    requires |name| == 2 && n > 0
    ensures Tidy(name + PrintNat(n))
  {
    PrintedNatReads(n);
    PrintedNatLeads(n);
    var field := name + PrintNat(n);
    forall i | 2 <= i < |field| ensures IsDigit(field[i]) { assert field[i] in PrintNat(n); }
  }

  /** A tidy field is the printed form of the number in it. */
  lemma TidyPrints(field: string)
    requires Tidy(field)
    ensures forall c :: c in field[2..] ==> IsDigit(c)
    ensures field == field[..2] + PrintNat(ReadNat(field[2..]))
  {
    forall c | c in field[2..] ensures IsDigit(c) {
      var i :| 0 <= i < |field[2..]| && field[2..][i] == c;
      assert field[i + 2] == c;
    }
    ReadNatPrints(field[2..]);
  }

  function Figures(p: Parameters): seq<string> {
    ["m=" + PrintNat(p.memory), "t=" + PrintNat(p.time), "p=" + PrintNat(p.parallelism)]
  }

  lemma JoinThree(a: string, b: string, c: string)
    ensures Joined([a, b, c], ',') == a + ("," + (b + ("," + c)))
  {
    assert [a, b, c][1..] == [b, c] && [b, c][1..] == [c];
    assert Joined([b, c], ',') == b + [','] + c;
  }

  lemma FiguresJoin(p: Parameters)
    ensures Split(PrintParameters(p), ',') == Figures(p)
  {
    var f := Figures(p);
    PrintedNatReads(p.memory);
    PrintedNatReads(p.time);
    PrintedNatReads(p.parallelism);
    JoinThree(f[0], f[1], f[2]);
    SplitJoined(f, ',');
    hide Split, Joined, PrintNat;
    JoinedFigures(PrintNat(p.memory), PrintNat(p.time), PrintNat(p.parallelism));
  }

  lemma JoinedFigures(m: string, t: string, p: string)
    ensures "m=" + m + ("," + ("t=" + t + ("," + ("p=" + p)))) == "m=" + (m + (",t=" + (t + (",p=" + p))))
  {
  }

  lemma VersionIsPrintedIff(field: string)
    requires ScanVersion(field) == Some(ARGON_VERSION)
    ensures field == PrintVersion() <==> Tidy(field)
  {
    TidyField("v=", ARGON_VERSION);
    if Tidy(field) {
      TidyPrints(field);
      ScanVersionDigits(field[2..]);
      assert field == "v=" + field[2..];
    }
  }

  lemma ParametersArePrintedIff(field: string)
    requires ScanParameters(field).Some? && AcceptableParameters(ScanParameters(field).value)
    ensures field == PrintParameters(ScanParameters(field).value) <==> |Split(field, ',')| == 3 && AllTidy(Split(field, ','))
  {
    var p, parts := ScanParameters(field).value, Split(field, ',');
    FiguresJoin(p);
    TidyField("m=", p.memory);
    TidyField("t=", p.time);
    TidyField("p=", p.parallelism);
    hide ScanParameters, PrintParameters, Split, PrintNat, Joined, Tidy, AcceptableParameters;
    if |parts| == 3 && AllTidy(parts) {
      JoinedSplit(field, ',');
      assert parts == [parts[0], parts[1], parts[2]];
      ThreeFigures(field, parts[0], parts[1], parts[2]);
    }
  }

  lemma ThreeFigures(field: string, m: string, t: string, p: string)
    requires field == Joined([m, t, p], ',') && Tidy(m) && Tidy(t) && Tidy(p) && ScanParameters(field).Some?
    ensures field == PrintParameters(ScanParameters(field).value)
  {
    JoinThree(m, t, p);
    TidyPrints(m);
    TidyPrints(t);
    TidyPrints(p);
    hide Joined, Tidy, ScanUnsigned, ScanParameters, ReadNat, PrintNat, IsDigit;
    NestFigures(m, t, p);
    ScanThree(m[..2], m[2..], "," + t[..2], t[2..], "," + p[..2], p[2..]);
  }

  lemma NestFigures(m: string, t: string, p: string)
    requires |m| > 2 && |t| > 2 && |p| > 2
    ensures m + ("," + (t + ("," + p))) == m[..2] + (m[2..] + ("," + t[..2] + (t[2..] + ("," + p[..2] + p[2..]))))
  {
    assert m == m[..2] + m[2..] && t == t[..2] + t[2..] && p == p[..2] + p[2..];
  }

  lemma Prefixed(y: string, z: string, lit: string)
    requires |y| == |lit| && StartsWith(y + z, lit)
    ensures y == lit && (y + z)[|lit|..] == z
  {
    assert (y + z)[..|lit|] == y;
  }

  /** Where digits follow each name the scan reads exactly them, under exactly these names. */
  lemma ScanThree(m: string, md: string, t: string, td: string, p: string, pd: string)
    requires |m| == 2 && |t| == 3 && |p| == 3 && t[0] == ',' && p[0] == ','
    requires md != "" && td != "" && pd != ""
    requires (forall c :: c in md ==> IsDigit(c)) && (forall c :: c in td ==> IsDigit(c)) && (forall c :: c in pd ==> IsDigit(c))
    requires ScanParameters(m + (md + (t + (td + (p + pd))))).Some?
    ensures ScanParameters(m + (md + (t + (td + (p + pd))))).value == Parameters(ReadNat(td), ReadNat(md), ReadNat(pd))
    ensures m == "m=" && t == ",t=" && p == ",p="
  {
    ScanDigits(md, t + (td + (p + pd)), MAX_UINT32);
    ScanDigits(td, p + pd, MAX_UINT32);
    ScanDigits(pd, "", MAX_UINT8);
    assert pd + "" == pd;
    hide ScanUnsigned, ReadNat, IsDigit, StartsWith;
    Prefixed(m, md + (t + (td + (p + pd))), "m=");
    Prefixed(t, td + (p + pd), ",t=");
    Prefixed(p, pd, ",p=");
  }

  /** Which accepted texts are printed ones: those whose version and figures are plainly written
      and whose salt and key have no line break in them. Every other accepted text is a second
      spelling of a hash that prints differently. */
  lemma RoundTripsIff(encoded: string)
    requires Parse(encoded).Some?
    ensures var r, parts := Parse(encoded).value, Split(encoded, '$');
      Print(r.parameters, r.salt, r.key) == encoded <==>
        && Tidy(parts[2])
        && |Split(parts[3], ',')| == 3 && AllTidy(Split(parts[3], ','))
        && !LineBreak(parts[4]) && !LineBreak(parts[5])
  {
    var r, parts := Parse(encoded).value, Split(encoded, '$');
    ParsedFields(encoded);
    hide Parse, Tidy, AllTidy, ScanVersion, ScanParameters, Encode, Stripped, Split, Print, PrintParameters, PrintVersion, LineBreak;
    VersionIsPrintedIff(parts[2]);
    ParametersArePrintedIff(parts[3]);
    BytesArePrintedIff(parts[4], r.salt);
    BytesArePrintedIff(parts[5], r.key);
    PrintedIff(encoded, r.parameters, r.salt, r.key);
  }

  lemma ParsedFields(encoded: string)
    requires Parse(encoded).Some?
    ensures var r, parts := Parse(encoded).value, Split(encoded, '$');
      && |parts| == 6 && parts[0] == "" && parts[1] == "argon2id" && ScanVersion(parts[2]) == Some(ARGON_VERSION)
      && ScanParameters(parts[3]) == Some(r.parameters) && AcceptableParameters(r.parameters)
      && Stripped(parts[4]) == Encode(r.salt) && Stripped(parts[5]) == Encode(r.key)
  {
    hide ScanVersion, ScanParameters, Split, Encode, Decode;
    ParsedIsCanonical(encoded);
  }

  lemma BytesArePrintedIff(field: string, bs: seq<byte>)
    requires Stripped(field) == Encode(bs)
    ensures field == Encode(bs) <==> !LineBreak(field)
  {
    StrippedLength(field);
    hide Stripped, Encode;
    EncodedPlain(bs);
  }

  lemma PrintedIff(encoded: string, p: Parameters, salt: seq<byte>, key: seq<byte>)
    requires var parts := Split(encoded, '$'); |parts| == 6 && parts[0] == "" && parts[1] == "argon2id"
    ensures var parts := Split(encoded, '$');
      Print(p, salt, key) == encoded <==>
        parts[2] == PrintVersion() && parts[3] == PrintParameters(p) && parts[4] == Encode(salt) && parts[5] == Encode(key)
  {
    var parts := Split(encoded, '$');
    SplitPrinted(p, salt, key);
    JoinedSplit(encoded, '$');
    hide Joined, Split, PrintVersion, PrintParameters, Encode;
    assert parts == [parts[0], parts[1], parts[2], parts[3], parts[4], parts[5]];
  }

  lemma EncodedPlain(bs: seq<byte>)
    ensures !LineBreak(Encode(bs))
  {
    if '\r' in Encode(bs) { EncodedHas(bs, '\r'); }
    if '\n' in Encode(bs) { EncodedHas(bs, '\n'); }
  }

  /** One way to miss it: text after the last parameter is never looked at, so a text nobody
      printed is accepted with the same meaning. */
  lemma TrailingTextIsAccepted(p: Parameters, salt: seq<byte>, key: seq<byte>, extra: string)
    requires AcceptableParameters(p) && AcceptableLength(salt) && AcceptableLength(key)
    requires extra != "" && !IsDigit(extra[0]) && '$' !in extra
    ensures var text := Joined(PrintedParts(p, salt, key)[3 := PrintParameters(p) + extra], '$');
      Parse(text) == Some(Parsed(p, salt, key)) && text != Print(p, salt, key)
  {
    var parts := PrintedParts(p, salt, key)[3 := PrintParameters(p) + extra];
    NoDollars(p, salt);
    NoDollars(p, key);
    SplitJoined(parts, '$');
    SplitPrinted(p, salt, key);
    ScanPrintedVersion();
    ScanPrintedParameters(p, extra);
    EncodedDecodes(salt);
    EncodedDecodes(key);
    assert parts[3] != PrintParameters(p);
  }

  // ---------------------------------------------------------------- hashing and verifying

  /** The key derivation, seen only through its arguments and the length of its result. */
  type Kdf = f: (seq<byte>, seq<byte>, Parameters, nat) -> seq<byte> | forall w, s, p, n :: |f(w, s, p, n)| == n
    ghost witness (w: seq<byte>, s: seq<byte>, p: Parameters, n: nat) => seq(n, i => 0 as byte)

  datatype Hashed = Encoded(text: string) | SourceFailed

  datatype Verified = Verified(matches: bool) | Malformed

  /** A call that may have to wait for a worker slot: it has returned, it gave up because its
      context was done, or it is waiting still and nothing has happened. */
  datatype Call<+T> = Returned(value: T) | ContextDone | Waiting

  function VerifySpec(kdf: Kdf, password: seq<byte>, encoded: string): Verified {
    match Parse(encoded)
    case None => Malformed
    case Some(p) => Verified(kdf(password, p.salt, p.parameters, |p.key|) == p.key)
  }

  /** A stored hash accepts a password exactly when both derive the same key from its salt: in
      particular it always accepts the password it was made from. */
  lemma VerifyAcceptsExactly(kdf: Kdf, made: seq<byte>, tried: seq<byte>, p: Parameters, salt: seq<byte>, keyLength: nat)
    requires AcceptableParameters(p) && AcceptableLength(salt) && 16 <= keyLength <= 64
    ensures VerifySpec(kdf, tried, Print(p, salt, kdf(made, salt, p, keyLength)))
      == Verified(kdf(tried, salt, p, keyLength) == kdf(made, salt, p, keyLength))
  {
    ParsePrintedIff(p, salt, kdf(made, salt, p, keyLength));
  }

  class PasswordHasher {
    const parameters: Parameters
    const saltLength: nat
    const keyLength: nat
    const capacity: nat
    var running: nat   // slots taken in the worker channel

    ghost predicate Valid()
      reads this
    {
      running <= capacity
    }

    constructor (parameters: Parameters, saltLength: nat, keyLength: nat, capacity: nat)
      ensures this.parameters == parameters && this.saltLength == saltLength
      ensures this.keyLength == keyLength && this.capacity == capacity && running == 0 && Valid()
    {
      this.parameters, this.saltLength, this.keyLength, this.capacity := parameters, saltLength, keyLength, capacity;
      running := 0;
    }

    /** What acquire comes to: `pickDone` is the choice select makes when a slot is free and the
        context is done. */
    predicate Enters(cancelled: bool, pickDone: bool)
      reads this
    {
      running < capacity && !(cancelled && pickDone)
    }

    method Acquire(cancelled: bool, pickDone: bool) returns (r: Call<()>)
      requires Valid()
      modifies this`running
      ensures Valid() && running == old(running) + if r.Returned? then 1 else 0
      ensures r.Returned? <==> old(Enters(cancelled, pickDone))
      ensures r.ContextDone? <==> cancelled && !old(Enters(cancelled, pickDone))
    {
      if running < capacity && !(cancelled && pickDone) {
        running := running + 1;
        return Returned(());
      }
      r := if cancelled then ContextDone else Waiting;
    }

    method Release()
      requires Valid() && running > 0
      modifies this`running
      ensures Valid() && running == old(running) - 1
    {
      running := running - 1;
    }

    /** Hashing gives its slot back on every path. What it stores is what Verify will accept for
        exactly the passwords with the same derived key. */
    method Hash(kdf: Kdf, password: seq<byte>, random: Reader, cancelled: bool, pickDone: bool) returns (r: Call<Hashed>)
      requires Valid()
      modifies this`running, random
      ensures Valid() && running == old(running)
      ensures r.Returned? <==> old(Enters(cancelled, pickDone))
      ensures r.ContextDone? <==> cancelled && !old(Enters(cancelled, pickDone))
      ensures !r.Returned? ==> random.pending == old(random.pending)
      ensures r.Returned? ==> (r.value.SourceFailed? <==> |old(random.pending)| < saltLength)
      ensures r.Returned? && r.value.Encoded? ==>
        var salt := old(random.pending)[..saltLength];
        && r.value.text == Print(parameters, salt, kdf(password, salt, parameters, keyLength))
        && (AcceptableParameters(parameters) && 16 <= saltLength <= 64 && 16 <= keyLength <= 64 ==>
             forall tried :: VerifySpec(kdf, tried, r.value.text)
               == Verified(kdf(tried, salt, parameters, keyLength) == kdf(password, salt, parameters, keyLength)))
    {
      var entered := Acquire(cancelled, pickDone);
      if entered.ContextDone? { return ContextDone; }
      if entered.Waiting? { return Waiting; }
      var ok, salt := random.ReadFull(saltLength);
      if !ok {
        Release();
        return Returned(SourceFailed);
      }
      var key := kdf(password, salt, parameters, keyLength);
      r := Returned(Encoded(Print(parameters, salt, key)));
      Release();
      if AcceptableParameters(parameters) && 16 <= saltLength <= 64 && 16 <= keyLength <= 64 {
        forall tried
          ensures VerifySpec(kdf, tried, r.value.text) == Verified(kdf(tried, salt, parameters, keyLength) == key)
        {
          VerifyAcceptsExactly(kdf, password, tried, parameters, salt, keyLength);
        }
      }
    }

    /** A malformed hash is answered before any slot is asked for. A printed one accepts exactly the
        passwords from which its salt derives its key. */
    method Verify(kdf: Kdf, password: seq<byte>, encoded: string, cancelled: bool, pickDone: bool) returns (r: Call<Verified>)
      requires Valid()
      modifies this`running
      ensures Valid() && running == old(running)
      ensures r == Returned(Malformed) <==> Parse(encoded).None?
      ensures Parse(encoded).Some? ==>
        && (r.Returned? <==> old(Enters(cancelled, pickDone)))
        && (r.ContextDone? <==> cancelled && !old(Enters(cancelled, pickDone)))
      ensures r.Returned? ==> r.value == VerifySpec(kdf, password, encoded)
      ensures r.Returned? ==> forall p, salt, key ::
        encoded == Print(p, salt, key) && AcceptableParameters(p) && AcceptableLength(salt) && AcceptableLength(key) ==>
          r.value == Verified(kdf(password, salt, p, |key|) == key)
    {
      forall p, salt, key | encoded == Print(p, salt, key) && AcceptableParameters(p) && AcceptableLength(salt) && AcceptableLength(key)
        ensures Parse(encoded) == Some(Parsed(p, salt, key))
      {
        ParsePrintedIff(p, salt, key);
      }
      var parsed := Parse(encoded);
      if parsed.None? { return Returned(Malformed); }
      var entered := Acquire(cancelled, pickDone);
      if entered.ContextDone? { return ContextDone; }
      if entered.Waiting? { return Waiting; }
      var actual := kdf(password, parsed.value.salt, parsed.value.parameters, |parsed.value.key|);
      r := Returned(Verified(actual == parsed.value.key));
      Release();
    }
  }
}
