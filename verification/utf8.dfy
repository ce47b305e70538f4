// UTF-8 sanitising and truncation of reported text, on bytes
// (agent/internal/client/client.go).
module Utf8 {
  type Byte = b: int | 0 <= b < 256

  type Bytes = seq<Byte>

  const RUNE_ERROR := 0xFFFD
  const REPLACEMENT: Bytes := [0xEF, 0xBF, 0xBD]
  const MARKER: Bytes := [46, 46, 46, 32, 40, 116, 114, 117, 110, 99, 97, 116, 101, 100, 41] // "... (truncated)"

  // ---- The reference: RFC 3629.

  predicate Scalar(r: int) {
    0 <= r <= 0x10FFFF && !(0xD800 <= r <= 0xDFFF)
  }

  // Section 3; a value that is no Unicode scalar is written as U+FFFD.
  function Encode(r: int): (c: Bytes)
    ensures 1 <= |c| <= 4
  {
    if 0 <= r < 0x80 then [r]
    else if 0 <= r < 0x800 then [0xC0 + r / 64, 0x80 + r % 64]
    else if !Scalar(r) then REPLACEMENT
    else if r < 0x10000 then [0xE0 + r / 4096, 0x80 + r / 64 % 64, 0x80 + r % 64]
    else [0xF0 + r / 262144, 0x80 + r / 4096 % 64, 0x80 + r / 64 % 64, 0x80 + r % 64]
  }

  // A text and the bytes that carry it.
  function Text(runes: seq<int>): Bytes {
    if runes == [] then [] else Encode(runes[0]) + Text(runes[1..])
  }

  predicate Scalars(runes: seq<int>) {
    forall r | r in runes :: Scalar(r)
  }

  ghost predicate WellFormed(s: Bytes) {
    exists runes: seq<int> :: Scalars(runes) && Text(runes) == s
  }

  predicate Tail(b: int) {
    0x80 <= b <= 0xBF
  }

  // Section 4: the productions UTF8-1 to UTF8-4.
  predicate IsChar(c: Bytes) {
    match |c|
    case 1 => c[0] <= 0x7F
    case 2 => 0xC2 <= c[0] <= 0xDF && Tail(c[1])
    case 3 => Tail(c[2]) &&
      ((c[0] == 0xE0 && 0xA0 <= c[1] <= 0xBF) || (0xE1 <= c[0] <= 0xEC && Tail(c[1]))
       || (c[0] == 0xED && 0x80 <= c[1] <= 0x9F) || (0xEE <= c[0] <= 0xEF && Tail(c[1])))
    case 4 => Tail(c[2]) && Tail(c[3]) &&
      ((c[0] == 0xF0 && 0x90 <= c[1] <= 0xBF) || (0xF1 <= c[0] <= 0xF3 && Tail(c[1]))
       || (c[0] == 0xF4 && 0x80 <= c[1] <= 0x8F))
    case _ => false
  }

  ghost predicate Octets(s: Bytes) {
    s == [] || exists n :: 1 <= n <= |s| && IsChar(s[..n]) && Octets(s[n..])
  }

  // ---- The program's decoder: a table of first bytes, then one byte at a time.

  datatype Decoded = Decoded(r: int, size: nat)

  const BAD := Decoded(RUNE_ERROR, 1)

  // Length of the sequence a first byte announces; 0 if it cannot start one.
  function Announced(b: Byte): nat {
    if b < 0x80 then 1
    else if b < 0xC2 then 0
    else if b < 0xE0 then 2
    else if b < 0xF0 then 3
    else if b < 0xF5 then 4
    else 0
  }

  predicate SecondFits(b: Byte, c: Byte) {
    (if b == 0xE0 then 0xA0 else if b == 0xF0 then 0x90 else 0x80) <= c
    <= (if b == 0xED then 0x9F else if b == 0xF4 then 0x8F else 0xBF)
  }

  // The payload of a byte whose leading bits are `mark`.
  function Bits(b: Byte, mark: int): int {
    b - mark
  }

  function Decode(s: Bytes): (d: Decoded)
    requires s != []
    ensures 1 <= d.size <= |s|
  {
    var n := Announced(s[0]);
    if n == 1 then Decoded(s[0], 1)
    else if n == 0 || |s| < n || !SecondFits(s[0], s[1]) then BAD
    else if n == 2 then Decoded(Bits(s[0], 0xC0) * 64 + Bits(s[1], 0x80), 2)
    else if !Tail(s[2]) then BAD
    else if n == 3 then Decoded(Bits(s[0], 0xE0) * 4096 + Bits(s[1], 0x80) * 64 + Bits(s[2], 0x80), 3)
    else if !Tail(s[3]) then BAD
    else Decoded(Bits(s[0], 0xF0) * 262144 + Bits(s[1], 0x80) * 4096 + Bits(s[2], 0x80) * 64 + Bits(s[3], 0x80), 4)
  }

  predicate ValidString(s: Bytes) {
    s == [] || (Decode(s) != BAD && ValidString(s[Decode(s).size..]))
  }

  // Six-bit groups are put together and taken apart without loss.
  lemma Pack2(a: int, b: int)
    requires 0 <= b < 64
    ensures (a * 64 + b) / 64 == a && (a * 64 + b) % 64 == b
  {}

  lemma Pack3(a: int, b: int, c: int)
    requires 0 <= b < 64 && 0 <= c < 64
    ensures var r := a * 4096 + b * 64 + c; r / 4096 == a && r / 64 % 64 == b && r % 64 == c
  {
    assert (a * 4096 + b * 64 + c) / 64 == a * 64 + b;
  }

  lemma Pack4(a: int, b: int, c: int, d: int)
    requires 0 <= b < 64 && 0 <= c < 64 && 0 <= d < 64
    ensures var r := a * 262144 + b * 4096 + c * 64 + d;
      r / 262144 == a && r / 4096 % 64 == b && r / 64 % 64 == c && r % 64 == d
  {
    var r := a * 262144 + b * 4096 + c * 64 + d;
    Pack2(a * 4096 + b * 64 + c, d);
    Pack2(a * 64 + b, c);
    assert r / 4096 == a * 64 + b;
    Pack2(a, b);
  }

  lemma Unpack(r: int)
    ensures r / 64 == r / 4096 * 64 + r / 64 % 64
    ensures r / 4096 == r / 262144 * 64 + r / 4096 % 64
    ensures r == r / 64 * 64 + r % 64
  {}


  lemma DecodeSize(s: Bytes)
    requires s != []
    ensures Decode(s).size <= 4
  {}

  lemma DecodeTwo(s: Bytes)
    requires s != [] && Decode(s).size == 2
    ensures Scalar(Decode(s).r) && Encode(Decode(s).r) == s[..2]
  {
    Pack2(Bits(s[0], 0xC0), Bits(s[1], 0x80));
  }

  lemma DecodeThree(s: Bytes)
    requires s != [] && Decode(s).size == 3
    ensures Scalar(Decode(s).r) && Encode(Decode(s).r) == s[..3]
  {
    Pack3(Bits(s[0], 0xE0), Bits(s[1], 0x80), Bits(s[2], 0x80));
  }

  lemma DecodeFour(s: Bytes)
    requires s != [] && Decode(s).size == 4
    ensures Scalar(Decode(s).r) && Encode(Decode(s).r) == s[..4]
  {
    Pack4(Bits(s[0], 0xF0), Bits(s[1], 0x80), Bits(s[2], 0x80), Bits(s[3], 0x80));
  }

  lemma DecodeEncode(s: Bytes)
    requires s != []
    ensures var d := Decode(s);
      Scalar(d.r) && (d != BAD ==> d.size <= 4 && Encode(d.r) == s[..d.size])
  {
    DecodeSize(s);
    var d := Decode(s);
    if d.size == 2 {
      DecodeTwo(s);
    } else if d.size == 3 {
      DecodeThree(s);
    } else if d.size == 4 {
      DecodeFour(s);
    }
  }

  lemma EncodeTwo(r: int, s: Bytes)
    requires 0x80 <= r < 0x800 && |s| >= 2 && s[0] == 0xC0 + r / 64 && s[1] == 0x80 + r % 64
    ensures Decode(s) == Decoded(r, 2)
  {
    Unpack(r);
  }

  lemma EncodeThree(r: int, s: Bytes)
    requires 0x800 <= r < 0x10000 && Scalar(r)
    requires |s| >= 3 && s[0] == 0xE0 + r / 4096 && s[1] == 0x80 + r / 64 % 64 && s[2] == 0x80 + r % 64
    ensures Decode(s) == Decoded(r, 3)
  {
    Unpack(r);
  }

  lemma EncodeFour(r: int, s: Bytes)
    requires 0x10000 <= r < 0x110000
    requires |s| >= 4 && s[0] == 0xF0 + r / 262144 && s[1] == 0x80 + r / 4096 % 64
    requires s[2] == 0x80 + r / 64 % 64 && s[3] == 0x80 + r % 64
    ensures Decode(s) == Decoded(r, 4)
  {
    Unpack(r);
  }

  lemma EncodeDecode(r: int, rest: Bytes)
    requires Scalar(r)
    ensures Decode(Encode(r) + rest) == Decoded(r, |Encode(r)|) != BAD
    ensures (Encode(r) + rest)[|Encode(r)|..] == rest
  {
    var s := Encode(r) + rest;
    if r < 0x80 {
    } else if r < 0x800 {
      EncodeTwo(r, s);
    } else if r < 0x10000 {
      EncodeThree(r, s);
    } else {
      EncodeFour(r, s);
    }
  }

  // A character of the grammar starts a text exactly where the decoder takes one.
  lemma DecodesChars(s: Bytes, n: nat)
    requires 1 <= n <= |s|
    ensures IsChar(s[..n]) <==> Decode(s) != BAD && Decode(s).size == n
  {}

  lemma {:induction false} ValidIsGrammar(s: Bytes)
    ensures ValidString(s) <==> Octets(s)
  {
    if s != [] {
      forall n | 1 <= n <= |s| ensures IsChar(s[..n]) <==> Decode(s) != BAD && Decode(s).size == n {
        DecodesChars(s, n);
      }
      ValidIsGrammar(s[Decode(s).size..]);
    }
  }

  function Runes(s: Bytes): seq<int> {
    if s == [] then [] else [Decode(s).r] + Runes(s[Decode(s).size..])
  }

  lemma Prepended(r: int, rest: seq<int>)
    requires Scalar(r) && Scalars(rest)
    ensures Scalars([r] + rest) && Text([r] + rest) == Encode(r) + Text(rest)
  {
    hide Encode, Scalar;
    assert ([r] + rest)[1..] == rest;
  }

  lemma {:induction false} ValidIsText(s: Bytes)
    requires ValidString(s)
    ensures Scalars(Runes(s)) && Text(Runes(s)) == s
  {
    if s != [] {
      var d := Decode(s);
      ValidIsText(s[d.size..]);
      DecodeEncode(s);
      Prepended(d.r, Runes(s[d.size..]));
      Divided(s, d.size);
    }
  }

  lemma Divided<T>(s: seq<T>, n: nat)
    requires n <= |s|
    ensures s[..n] + s[n..] == s
  {}

  lemma {:induction false} TextIsValid(runes: seq<int>)
    requires Scalars(runes)
    ensures ValidString(Text(runes))
  {
    if runes != [] {
      assert Scalar(runes[0]) && Scalars(runes[1..]);
      TextIsValid(runes[1..]);
      EncodeDecode(runes[0], Text(runes[1..]));
    }
  }

  // The validity check accepts exactly the well-formed UTF-8 texts.
  lemma ValidIsWellFormed(s: Bytes)
    ensures ValidString(s) <==> WellFormed(s)
  {
    if ValidString(s) {
      ValidIsText(s);
    }
    if WellFormed(s) {
      var runes: seq<int> :| Scalars(runes) && Text(runes) == s;
      TextIsValid(runes);
    }
  }

  // ---- Sanitising.

  function Sanitize(s: Bytes): Bytes {
    if s == [] then [] else Encode(Decode(s).r) + Sanitize(s[Decode(s).size..])
  }

  lemma {:induction false} SanitizeIsText(s: Bytes)
    ensures ValidString(Sanitize(s))
  {
    if s != [] {
      var d := Decode(s);
      SanitizeIsText(s[d.size..]);
      DecodeEncode(s);
      EncodeDecode(d.r, Sanitize(s[d.size..]));
    }
  }

  lemma DecodeLocal(p: Bytes, s: Bytes)
    requires p != [] && Decode(p) != BAD
    ensures Decode(p + s) == Decode(p)
    ensures (p + s)[Decode(p).size..] == p[Decode(p).size..] + s
  {}

  // Valid text passes unchanged, whatever follows it.
  lemma {:induction false} SanitizePrefix(p: Bytes, s: Bytes)
    requires ValidString(p)
    ensures Sanitize(p + s) == p + Sanitize(s)
  {
    hide Decode, Encode;
    if p == [] {
      assert p + s == s;
    } else {
      var d := Decode(p);
      DecodeLocal(p, s);
      DecodeEncode(p);
      SanitizePrefix(p[d.size..], s);
      assert p == p[..d.size] + p[d.size..];
    }
  }

  lemma {:induction false} SanitizeLength(s: Bytes)
    ensures |s| <= |Sanitize(s)| <= 3 * |s|
  {
    if s != [] {
      SanitizeLength(s[Decode(s).size..]);
      DecodeEncode(s);
    }
  }

  lemma SanitizeValid(s: Bytes)
    requires ValidString(s)
    ensures Sanitize(s) == s
  {
    SanitizePrefix(s, []);
    assert s + [] == s;
  }

  // Output is well-formed; exactly the well-formed texts are left alone; a byte at which
  // no character can be decoded becomes U+FFFD on its own.
  lemma SanitizeMeetsRfc3629(s: Bytes)
    ensures WellFormed(Sanitize(s))
    ensures Sanitize(s) == s <==> WellFormed(s)
    ensures Sanitize(Sanitize(s)) == Sanitize(s)
    ensures |s| <= |Sanitize(s)| <= 3 * |s|
  {
    SanitizeIsText(s);
    SanitizeLength(s);
    ValidIsWellFormed(s);
    ValidIsWellFormed(Sanitize(s));
    SanitizeValid(Sanitize(s));
    if ValidString(s) { SanitizeValid(s); }
  }

  lemma BadReplaced(s: Bytes)
    requires s != [] && Decode(s) == BAD
    ensures Sanitize(s) == REPLACEMENT + Sanitize(s[1..])
  {
    hide Decode;
  }

  lemma SanitizeReplaces(p: Bytes, b: Byte, rest: Bytes)
    requires ValidString(p) && Decode([b] + rest) == BAD
    ensures Sanitize(p + [b] + rest) == p + REPLACEMENT + Sanitize(rest)
  {
    hide ValidString, Sanitize;
    SanitizePrefix(p, [b] + rest);
    assert p + [b] + rest == p + ([b] + rest);
    BadReplaced([b] + rest);
  }

  lemma SanitizeStep(s: Bytes)
    ensures Sanitize(s) == if s == [] then [] else Encode(Decode(s).r) + Sanitize(s[Decode(s).size..])
  {
    hide Decode, Encode;
  }

  // The loop of the program.
  method SanitizeUTF8(text: Bytes) returns (b: Bytes)
    ensures b == Sanitize(text)
    ensures WellFormed(b) && (b == text <==> WellFormed(text))
  {
    hide Decode, Encode, Sanitize, WellFormed, ValidString;
    SanitizeMeetsRfc3629(text);
    ValidIsWellFormed(text);
    if ValidString(text) {
      SanitizeValid(text);
      return text;
    }
    var s := text;
    b := [];
    assert b + Sanitize(s) == Sanitize(text);
    while |s| > 0
      invariant b + Sanitize(s) == Sanitize(text)
      decreases |s|
    {
      var d := Decode(s);
      SanitizeStep(s);
      Associates(b, Encode(d.r), Sanitize(s[d.size..]));
      if d.r == RUNE_ERROR && d.size == 1 {
        b := b + Encode(RUNE_ERROR);
      } else {
        b := b + Encode(d.r);
      }
      s := s[d.size..];
    }
    SanitizeStep(s);
    assert b + [] == b;
  }

  // ---- Truncation by bytes.

  function Truncate(s: Bytes, n: nat): Bytes {
    if |s| <= n then s else s[..n] + MARKER
  }

  // The last character boundary of s at or before n.
  function Boundary(s: Bytes, n: nat): (k: nat)
    requires n <= |s|
    ensures k <= n < k + 4
  {
    if n == 0 || Decode(s).size > n then
      (assert s == [] || Decode(s).size <= 4; 0)
    else
      Decode(s).size + Boundary(s[Decode(s).size..], n - Decode(s).size)
  }

  function Replacements(n: nat): Bytes {
    if n == 0 then [] else REPLACEMENT + Replacements(n - 1)
  }

  lemma {:induction false} ReplacementsLength(n: nat)
    ensures |Replacements(n)| == 3 * n
  {
    if n > 0 { ReplacementsLength(n - 1); }
  }

  lemma Shifted<T>(a: seq<T>, b: seq<T>)
    requires a != []
    ensures (a + b)[0] == a[0] && (a + b)[1..] == a[1..] + b
  {}

  lemma Associates<T>(a: seq<T>, b: seq<T>, c: seq<T>)
    ensures a + (b + c) == a + b + c
  {}

  // Bytes that can only continue a character are replaced one by one.
  lemma {:induction false} TailsReplaced(t: Bytes, rest: Bytes)
    requires forall i | 0 <= i < |t| :: Tail(t[i])
    ensures Sanitize(t + rest) == Replacements(|t|) + Sanitize(rest)
  {
    if t == [] {
      assert t + rest == rest;
    } else {
      hide Decode, Sanitize, Encode;
      TailsReplaced(t[1..], rest);
      var s := t + rest;
      Shifted(t, rest);
      TailIsBad(s);
      BadReplaced(s);
      Associates(REPLACEMENT, Replacements(|t| - 1), Sanitize(rest));
    }
  }

  lemma TailIsBad(s: Bytes)
    requires s != [] && Tail(s[0])
    ensures Decode(s) == BAD
  {}

  // A character cut short by a byte that cannot continue it does not decode.
  lemma StubIsBad(s: Bytes, n: nat, rest: Bytes)
    requires s != [] && Decode(s) != BAD && 0 < n < Decode(s).size
    requires rest != [] && rest[0] < 0x80
    ensures Decode(s[..n] + rest) == BAD
    ensures forall i | 1 <= i < n :: Tail(s[i])
  {
    var t := s[..n] + rest;
    assert t[n] == rest[0];
    assert forall i | 0 <= i < n :: t[i] == s[i];
  }

  lemma StubReplaced(s: Bytes, n: nat, rest: Bytes)
    requires s != [] && Decode(s) != BAD && 0 < n < Decode(s).size
    requires rest != [] && rest[0] < 0x80 && ValidString(rest)
    ensures Sanitize(s[..n] + rest) == Replacements(n) + rest
  {
    hide Decode, ValidString, Sanitize;
    var t := s[..n] + rest;
    StubIsBad(s, n, rest);
    BadReplaced(t);
    TailsReplaced(s[1..n], rest);
    assert t[1..] == s[1..n] + rest;
    SanitizeValid(rest);
  }

  lemma {:induction false} AsciiValid(s: Bytes)
    requires forall i | 0 <= i < |s| :: s[i] < 0x80
    ensures ValidString(s)
  {
    if s != [] { AsciiValid(s[1..]); }
  }

  lemma MarkerValid()
    ensures ValidString(MARKER)
  {
    hide ValidString;
    AsciiValid(MARKER);
  }

  // Cutting valid text at n and sanitising again keeps everything up to the last character
  // boundary, replaces each of the at most three bytes left dangling, and keeps the rest.
  lemma {:induction false} CutSanitized(s: Bytes, n: nat, rest: Bytes)
    requires ValidString(s) && n <= |s|
    requires rest != [] && rest[0] < 0x80 && ValidString(rest)
    ensures var k := Boundary(s, n);
      ValidString(s[..k]) && Sanitize(s[..n] + rest) == s[..k] + Replacements(n - k) + rest
  {
    hide Decode, Sanitize;
    if n == 0 {
      SanitizeValid(rest);
      assert s[..n] + rest == rest;
    } else if Decode(s).size > n {
      StubReplaced(s, n, rest);
    } else {
      var size := Decode(s).size;
      var k := Boundary(s[size..], n - size);
      CutSanitized(s[size..], n - size, rest);
      FirstValid(s);
      assert s == s[..size] + s[size..];
      CutAfter(s[..size], s[size..], n - size, k, Replacements(n - size - k), rest);
    }
  }

  lemma TakeAcross<T>(c: seq<T>, s: seq<T>, k: nat, stub: seq<T>, rest: seq<T>)
    requires k <= |s|
    ensures (c + s)[..|c| + k] == c + s[..k]
    ensures (c + s)[..|c| + k] + stub + rest == c + (s[..k] + stub + rest)
  {}

  // What holds of a text cut at n holds with valid text in front of it.
  lemma CutAfter(c: Bytes, s: Bytes, n: nat, k: nat, stub: Bytes, rest: Bytes)
    requires ValidString(c) && k <= n <= |s| && ValidString(s[..k])
    requires Sanitize(s[..n] + rest) == s[..k] + stub + rest
    ensures ValidString((c + s)[..|c| + k])
    ensures Sanitize((c + s)[..|c| + n] + rest) == (c + s)[..|c| + k] + stub + rest
  {
    hide *;
    TakeAcross(c, s, n, [], rest);
    TakeAcross(c, s, k, stub, rest);
    assert s[..n] + [] == s[..n] && (c + s)[..|c| + n] + [] == (c + s)[..|c| + n];
    SanitizePrefix(c, s[..n] + rest);
    JoinValid(c, s[..k]);
  }

  lemma FirstValid(s: Bytes)
    requires s != [] && Decode(s) != BAD
    ensures ValidString(s[..Decode(s).size])
  {
    var d := Decode(s);
    DecodeEncode(s);
    EncodeDecode(d.r, []);
    assert Encode(d.r) + [] == s[..d.size];
  }

  lemma {:induction false} JoinValid(p: Bytes, s: Bytes)
    requires ValidString(p) && ValidString(s)
    ensures ValidString(p + s)
  {
    if p == [] {
      assert p + s == s;
    } else {
      DecodeLocal(p, s);
      JoinValid(p[Decode(p).size..], s);
    }
  }

  // What the agent reports of raw output: sanitised, cut at n bytes, sanitised again.
  function Reported(raw: Bytes, n: nat): Bytes {
    Sanitize(Truncate(Sanitize(raw), n))
  }

  lemma ReportedOutput(raw: Bytes, n: nat)
    ensures var clean, out := Sanitize(raw), Reported(raw, n);
      && WellFormed(out)
      && |out| <= n + 21
      && (|clean| <= n ==> out == clean)
      && (|clean| > n ==>
            var k := Boundary(clean, n);
            && n < k + 4
            && out == clean[..k] + Replacements(n - k) + MARKER
            && |out| == n + 15 + 2 * (n - k))
  {
    hide ValidString, Sanitize, WellFormed;
    var clean := Sanitize(raw);
    SanitizeIsText(raw);
    SanitizeMeetsRfc3629(Truncate(clean, n));
    if |clean| <= n {
      SanitizeValid(clean);
    } else {
      MarkerValid();
      CutSanitized(clean, n, MARKER);
      ReplacementsLength(n - Boundary(clean, n));
    }
  }

  const OUTPUT_LIMIT := 10000

  // Standard output and error: at most 10021 bytes, the first 9997 intact.
  lemma ReportedStreams(raw: Bytes)
    ensures var clean, out := Sanitize(raw), Reported(raw, OUTPUT_LIMIT);
      && WellFormed(out) && |out| <= 10021
      && (|clean| > OUTPUT_LIMIT ==> clean[..9997] <= out && out[|out| - |MARKER|..] == MARKER)
  {
    hide Sanitize, WellFormed;
    ReportedOutput(raw, OUTPUT_LIMIT);
    var clean, out := Sanitize(raw), Reported(raw, OUTPUT_LIMIT);
    if |clean| > OUTPUT_LIMIT {
      var k := Boundary(clean, OUTPUT_LIMIT);
      assert clean[..k][..9997] == clean[..9997];
    }
  }

  lemma SizeOfLast()
    ensures |Encode(0x10000)| == 4
  {}

  // The bound is reached: text whose cut leaves three bytes of a four-byte character.
  lemma BoundIsTight(p: Bytes)
    requires ValidString(p)
    ensures |Reported(p + Encode(0x10000), |p| + 3)| == |p| + 3 + 21
  {
    hide Decode, Encode, Sanitize, ValidString, Replacements;
    var c := Encode(0x10000);
    var s := p + c;
    EncodeDecode(0x10000, []);
    SizeOfLast();
    assert c + [] == c;
    FirstValid(c);
    assert c[..4] == c;
    JoinValid(p, c);
    SanitizeValid(s);
    MarkerValid();
    assert s[..|p| + 3] + MARKER == p + (c[..3] + MARKER);
    SanitizePrefix(p, c[..3] + MARKER);
    StubReplaced(c, 3, MARKER);
    ReplacementsLength(3);
  }
}
