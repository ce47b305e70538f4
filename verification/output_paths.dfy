// Object-storage locations of job output: jobs/<id>/<attempt>/output.<ext>
// (cloud/internal/job/model.go and cloud/internal/gateway/gateway.go).
module OutputPaths {
  predicate StartsWith(s: string, prefix: string)
    ensures StartsWith(s, prefix) <==> prefix <= s
  {
    |s| >= |prefix| && s[..|prefix|] == prefix
  }

  function Digit(d: nat): char
    requires d < 10
  {
    ['0', '1', '2', '3', '4', '5', '6', '7', '8', '9'][d]
  }

  function Digits(n: nat): string {
    if n < 10 then [Digit(n)] else Digits(n / 10) + [Digit(n % 10)]
  }

  // Decimal text of an integer.
  function Itoa(n: int): string {
    if n < 0 then "-" + Digits(-n) else Digits(n)
  }

  // The extension asked for, without its dot; "bin" if there is none.
  function FileExtension(asked: string): string {
    var e := if asked == "" then "bin" else asked;
    if e[0] == '.' then e[1..] else e
  }

  // One leading dot does not count; without any text the extension is "bin".
  lemma FileExtensionExact(e: string)
    requires e == "" || e[0] != '.'
    ensures FileExtension(e) == if e == "" then "bin" else e
    ensures FileExtension("." + e) == e
  {
    assert ("." + e)[1..] == e;
  }

  function PrefixOf(id: string, attempt: int): string {
    "jobs/" + id + "/" + Itoa(attempt) + "/"
  }

  function KeyOf(id: string, attempt: int, extension: string): string {
    PrefixOf(id, attempt) + "output." + extension
  }

  // The value of a decimal text; undoes Itoa.
  function Value(s: string): int {
    if s == "" then 0
    else Value(s[..|s| - 1]) * 10 + (s[|s| - 1] as int - '0' as int)
  }

  lemma {:induction false} DigitsRoundTrip(n: nat)
    ensures Digits(n) != "" && Value(Digits(n)) == n
    ensures forall c | c in Digits(n) :: '0' <= c <= '9'
  {
    if n >= 10 {
      DigitsRoundTrip(n / 10);
      assert Digits(n)[..|Digits(n)| - 1] == Digits(n / 10);
    } else {
      assert Digits(n)[..0] == "";
    }
  }

  function Parse(s: string): int {
    if s != "" && s[0] == '-' then -Value(s[1..]) else Value(s)
  }

  lemma ItoaRoundTrip(n: int)
    ensures Parse(Itoa(n)) == n
    ensures '/' !in Itoa(n)
  {
    hide Digits, Value;
    if n < 0 {
      DigitsRoundTrip(-n);
      assert Itoa(n)[1..] == Digits(-n);
    } else {
      DigitsRoundTrip(n);
      assert Digits(n)[0] in Digits(n);
    }
  }

  // The text before the first slash.
  function Segment(s: string): string {
    if s == "" || s[0] == '/' then "" else [s[0]] + Segment(s[1..])
  }

  lemma {:induction false} SegmentOf(a: string, x: string)
    requires '/' !in a
    ensures Segment(a + "/" + x) == a
  {
    if a == "" {
      assert (a + "/" + x)[0] == '/';
    } else {
      SegmentOf(a[1..], x);
      assert (a + "/" + x)[1..] == a[1..] + "/" + x;
    }
  }

  lemma FirstSlash(a: string, x: string, b: string, y: string)
    requires '/' !in a && '/' !in b
    requires a + "/" + x == b + "/" + y
    ensures a == b && x == y
  {
    SegmentOf(a, x);
    SegmentOf(b, y);
    assert (a + "/" + x)[|a| + 1..] == x && (b + "/" + y)[|b| + 1..] == y;
  }

  lemma PrefixShape(id: string, attempt: int)
    ensures PrefixOf(id, attempt) == "jobs/" + (id + "/" + (Itoa(attempt) + "/" + ""))
    ensures PrefixOf(id, attempt) != ""
  {}

  lemma WithoutRoot(id: string, attempt: int, rest: string)
    ensures (PrefixOf(id, attempt) + rest)[5..] == id + "/" + (Itoa(attempt) + "/" + rest)
  {
    hide Itoa;
  }

  lemma PathParts(id: string, attempt: int, rest: string, id': string, attempt': int, rest': string)
    requires '/' !in id && '/' !in id'
    requires PrefixOf(id, attempt) + rest == PrefixOf(id', attempt') + rest'
    ensures id == id' && attempt == attempt' && rest == rest'
  {
    hide Itoa, Parse;
    var tail, tail' := Itoa(attempt) + "/" + rest, Itoa(attempt') + "/" + rest';
    WithoutRoot(id, attempt, rest);
    WithoutRoot(id', attempt', rest');
    FirstSlash(id, tail, id', tail');
    ItoaRoundTrip(attempt);
    ItoaRoundTrip(attempt');
    FirstSlash(Itoa(attempt), rest, Itoa(attempt'), rest');
  }

  // The upload key tells which job, which attempt and which extension it is for,
  // even when the extension itself contains slashes.
  lemma KeysAreInjective(id: string, attempt: int, ext: string, id': string, attempt': int, ext': string)
    requires '/' !in id && '/' !in id'
    requires KeyOf(id, attempt, ext) == KeyOf(id', attempt', ext')
    ensures id == id' && attempt == attempt' && ext == ext'
  {
    var file, file' := "output." + ext, "output." + ext';
    assert KeyOf(id, attempt, ext) == PrefixOf(id, attempt) + file;
    assert KeyOf(id', attempt', ext') == PrefixOf(id', attempt') + file';
    PathParts(id, attempt, file, id', attempt', file');
    assert file[7..] == ext && file'[7..] == ext';
  }

  // No output prefix is a proper prefix of another one.
  lemma PrefixesAreFree(id: string, attempt: int, id': string, attempt': int)
    requires '/' !in id && '/' !in id'
    requires PrefixOf(id, attempt) <= PrefixOf(id', attempt')
    ensures id == id' && attempt == attempt'
  {
    var p, q := PrefixOf(id, attempt), PrefixOf(id', attempt');
    assert p + q[|p|..] == q + "";
    PathParts(id, attempt, q[|p|..], id', attempt', "");
  }
}
