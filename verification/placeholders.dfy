// The placeholders of a job's command line: `{input}` is replaced first, then
// `{output}` in the result (agent/internal/client/client.go).
module Placeholders {
  const IN := "{input}"
  const OUT := "{output}"

  // Every occurrence of t in s, leftmost first and without overlap, becomes w.
  function ReplaceAll(s: string, t: string, w: string): string
    requires t != ""
  {
    if s == "" then ""
    else if t <= s then w + ReplaceAll(s[|t|..], t, w)
    else [s[0]] + ReplaceAll(s[1..], t, w)
  }

  function Expand(command: string, input: string, output: string): string {
    ReplaceAll(ReplaceAll(command, IN, input), OUT, output)
  }

  // The reference: both placeholders replaced in one pass over the command, so that
  // the text of a path is never read as a placeholder.
  function Substitute(command: string, input: string, output: string): string {
    if command == "" then ""
    else if IN <= command then input + Substitute(command[|IN|..], input, output)
    else if OUT <= command then output + Substitute(command[|OUT|..], input, output)
    else [command[0]] + Substitute(command[1..], input, output)
  }

  predicate Contains(s: string, t: string) {
    exists k | 0 <= k <= |s| :: t <= s[k..]
  }

  // Some command makes `{output}` appear where there was none: the path is a piece of the
  // placeholder (the empty path is one), has it inside, ends with its beginning or begins
  // with its end.
  predicate Clashes(input: string) {
    || Contains(OUT, input)
    || Contains(input, OUT)
    || (exists n | 0 < n < |OUT| && n <= |input| :: input[|input| - n..] == OUT[..n])
    || (exists n | 0 < n < |OUT| :: OUT[n..] <= input)
  }

  // ---- Paths that do not clash.

  lemma EndInside(input: string, n: nat, rest: string)
    requires n < |OUT| && OUT[n..] <= input + rest
    ensures Clashes(input)
  {
    Comparable(OUT[n..], input, rest);
    if OUT[n..] <= input && n == 0 {
      assert OUT <= input[0..];
    }
  }

  lemma StartInside(input: string, k: nat, rest: string)
    requires k < |input| && OUT <= input[k..] + rest
    ensures Clashes(input)
  {
    var s := input[k..];
    Comparable(OUT, s, rest);
    if !(OUT <= s) {
      assert input[|input| - |s|..] == s == OUT[..|s|];
    }
  }

  // Expanding `{input}` cannot complete an `{output}`.
  lemma {:induction false} NothingCompleted(n: nat, command: string, input: string)
    requires !Clashes(input) && n <= |OUT| && OUT[n..] <= ReplaceAll(command, IN, input)
    ensures OUT[n..] <= command
    decreases |OUT| - n
  {
    var v := OUT[n..];
    if v != "" {
      assert command != "";
      if IN <= command {
        EndInside(input, n, ReplaceAll(command[|IN|..], IN, input));
      } else {
        assert OUT[n + 1..] == v[1..];
        NothingCompleted(n + 1, command[1..], input);
      }
    }
  }

  lemma Comparable<T>(v: seq<T>, a: seq<T>, b: seq<T>)
    requires v <= a + b
    ensures v <= a || (a <= v && v[|a|..] <= b)
  {
    if |v| <= |a| {
      assert v == a[..|v|];
    } else {
      assert a == v[..|a|];
    }
  }

  // An inserted path is copied whatever follows it.
  lemma {:induction false} InsertedCopied(input: string, k: nat, rest: string, output: string)
    requires !Clashes(input) && k <= |input|
    ensures ReplaceAll(input[k..] + rest, OUT, output) == input[k..] + ReplaceAll(rest, OUT, output)
    decreases |input| - k
  {
    var s := input[k..];
    if s == "" {
      assert s + rest == rest;
    } else {
      if OUT <= s + rest {
        StartInside(input, k, rest);
      }
      assert (s + rest)[1..] == input[k + 1..] + rest;
      InsertedCopied(input, k + 1, rest, output);
    }
  }

  lemma MarkersDiffer(s: string)
    ensures !(IN <= s && OUT <= s)
  {
    assert IN <= s ==> s[1] == 'i';
    assert OUT <= s ==> s[1] == 'o';
  }

  // Text without an opening brace is copied by every replacement.
  lemma {:induction false} PlainCopied(s: string, rest: string, input: string, output: string)
    requires '{' !in s
    ensures ReplaceAll(s + rest, IN, input) == s + ReplaceAll(rest, IN, input)
    ensures Substitute(s + rest, input, output) == s + Substitute(rest, input, output)
  {
    if s == "" {
      assert s + rest == rest;
    } else {
      assert (s + rest)[0] != '{';
      assert (s + rest)[1..] == s[1..] + rest;
      PlainCopied(s[1..], rest, input, output);
    }
  }

  // `{input}` never overlaps `{output}`.
  lemma OutputKept(command: string, input: string)
    requires OUT <= command
    ensures ReplaceAll(command, IN, input) == OUT + ReplaceAll(command[|OUT|..], IN, input)
  {
    MarkersDiffer(command);
    var rest := command[|OUT|..];
    assert command[1..] == OUT[1..] + rest;
    PlainCopied(OUT[1..], rest, input, "");
    assert [command[0]] + OUT[1..] == OUT;
  }

  lemma {:induction false} SafeExpands(command: string, input: string, output: string)
    requires !Clashes(input)
    ensures Expand(command, input, output) == Substitute(command, input, output)
  {
    if command == "" {
    } else if IN <= command {
      var rest := command[|IN|..];
      SafeExpands(rest, input, output);
      InsertedCopied(input, 0, ReplaceAll(rest, IN, input), output);
      assert input[0..] == input;
    } else if OUT <= command {
      var rest := command[|OUT|..];
      SafeExpands(rest, input, output);
      OutputKept(command, input);
      assert (OUT + ReplaceAll(rest, IN, input))[|OUT|..] == ReplaceAll(rest, IN, input);
    } else {
      SafeExpands(command[1..], input, output);
      if OUT <= ReplaceAll(command, IN, input) {
        assert OUT[0..] == OUT;
        NothingCompleted(0, command, input);
      }
    }
  }

  // ---- Replacing `{output}` by itself.

  lemma {:induction false} ReplaceBySelf(s: string, t: string)
    requires t != ""
    ensures ReplaceAll(s, t, t) == s
  {
    if s != "" {
      if t <= s { ReplaceBySelf(s[|t|..], t); } else { ReplaceBySelf(s[1..], t); }
    }
  }

  lemma {:induction false} SelfExpands(command: string, input: string)
    ensures Expand(command, input, OUT) == Substitute(command, input, OUT)
  {
    ReplaceBySelf(ReplaceAll(command, IN, input), OUT);
    if command != "" {
      if IN <= command {
        SelfExpands(command[|IN|..], input);
        ReplaceBySelf(ReplaceAll(command[|IN|..], IN, input), OUT);
      } else if OUT <= command {
        SelfExpands(command[|OUT|..], input);
        ReplaceBySelf(ReplaceAll(command[|OUT|..], IN, input), OUT);
        OutputKept(command, input);
      } else {
        SelfExpands(command[1..], input);
        ReplaceBySelf(ReplaceAll(command[1..], IN, input), OUT);
      }
    }
  }

  // ---- Paths that clash.

  lemma {:induction false} ReplaceLength(s: string, t: string, w: string)
    requires t != ""
    ensures |w| <= |t| ==> |ReplaceAll(s, t, w)| <= |s|
    ensures |w| >= |t| ==> |ReplaceAll(s, t, w)| >= |s|
    ensures |w| < |t| && Contains(s, t) ==> |ReplaceAll(s, t, w)| < |s|
    ensures |w| > |t| && Contains(s, t) ==> |ReplaceAll(s, t, w)| > |s|
  {
    if s != "" {
      if t <= s {
        ReplaceLength(s[|t|..], t, w);
      } else {
        ReplaceLength(s[1..], t, w);
        ContainsLater(s, t);
      }
    }
  }

  lemma ContainsLater(s: string, t: string)
    requires s != "" && !(t <= s)
    ensures Contains(s, t) ==> Contains(s[1..], t)
  {
    if Contains(s, t) {
      var k :| 0 <= k <= |s| && t <= s[k..];
      assert s[0..] == s;
      assert s[1..][k - 1..] == s[k..];
    }
  }

  // Replacing something that occurs by something else changes the text.
  lemma {:induction false} ReplaceChanges(s: string, t: string, w: string)
    requires t != "" && w != t && Contains(s, t)
    ensures ReplaceAll(s, t, w) != s
  {
    ReplaceLength(s, t, w);
    if |w| == |t| {
      if t <= s {
        assert ReplaceAll(s, t, w)[..|t|] == w;
        assert s[..|t|] == t;
      } else {
        assert s != "";
        ContainsLater(s, t);
        ReplaceChanges(s[1..], t, w);
      }
    }
  }

  // The witness: the path between a proper beginning and a proper end of `{output}`.
  function Trap(p: nat, q: nat): string
    requires p < |OUT| && 0 < q <= |OUT|
  {
    OUT[..p] + IN + OUT[q..]
  }

  lemma InputReplaced(end: string, input: string, output: string)
    requires '{' !in end
    ensures ReplaceAll(IN + end, IN, input) == input + end
    ensures Substitute(IN + end, input, output) == input + end
  {
    PlainCopied(end, "", input, output);
    assert end + "" == end;
    assert (IN + end)[|IN|..] == end;
  }

  lemma TailPrefix(m: string, t: string)
    requires m != "" && t != "" && !(m[1..] <= t[1..])
    ensures !(m <= t)
  {}

  // A lone brace starts no placeholder.
  lemma BraceCopied(s: string, input: string, output: string)
    requires !(IN[1..] <= s) && !(OUT[1..] <= s)
    ensures ReplaceAll(['{'] + s, IN, input) == ['{'] + ReplaceAll(s, IN, input)
    ensures Substitute(['{'] + s, input, output) == ['{'] + Substitute(s, input, output)
  {
    var t := ['{'] + s;
    assert t[1..] == s;
    TailPrefix(IN, t);
    TailPrefix(OUT, t);
  }

  lemma NoMarkerInside(p: nat, tail: string)
    requires 0 < p < |OUT| && tail != "" && tail[0] == '{'
    ensures !(IN[1..] <= OUT[1..p] + tail) && !(OUT[1..] <= OUT[1..p] + tail)
  {
    var s := OUT[1..p] + tail;
    assert s[p - 1] == '{';
    assert s[0] == if p == 1 then '{' else 'o';
  }

  lemma TrapCopied(p: nat, q: nat, input: string, output: string)
    requires p < |OUT| && 0 < q <= |OUT|
    ensures ReplaceAll(Trap(p, q), IN, input) == OUT[..p] + input + OUT[q..]
    ensures Substitute(Trap(p, q), input, output) == OUT[..p] + input + OUT[q..]
  {
    hide ReplaceAll, Substitute;
    var end := OUT[q..];
    var tail := IN + end;
    InputReplaced(end, input, output);
    if p == 0 {
      assert Trap(p, q) == tail;
    } else {
      NoMarkerInside(p, tail);
      BraceCopied(OUT[1..p] + tail, input, output);
      PlainCopied(OUT[1..p], tail, input, output);
      assert OUT[..p] == ['{'] + OUT[1..p];
      assert Trap(p, q) == ['{'] + (OUT[1..p] + tail);
    }
  }

  // A text with `{output}` at position k.
  lemma Found(a: string, input: string, b: string, k: nat, n: nat)
    requires n <= |OUT| && k <= |a + input + b|
    requires (a + input + b)[k..] == OUT[..n] + OUT[n..]
    ensures Contains(a + input + b, OUT)
  {
    assert OUT[..n] + OUT[n..] == OUT;
  }

  lemma ClashTraps(input: string) returns (p: nat, q: nat)
    requires Clashes(input)
    ensures p < |OUT| && 0 < q <= |OUT| && Contains(OUT[..p] + input + OUT[q..], OUT)
  {
    if input == "" {
      p, q := 1, 1;
      Found(OUT[..1], "", OUT[1..], 0, 1);
    } else if Contains(OUT, input) {
      p, q := PieceTraps(input);
    } else if Contains(input, OUT) {
      p, q := 0, |OUT|;
      assert OUT[..0] + input + OUT[|OUT|..] == input;
    } else if n :| 0 < n < |OUT| && n <= |input| && input[|input| - n..] == OUT[..n] {
      p, q := 0, n;
      assert OUT[..0] == "";
      Found("", input, OUT[n..], |input| - n, n);
    } else {
      p, q := BeginningTraps(input);
    }
  }

  lemma PieceTraps(input: string) returns (p: nat, q: nat)
    requires input != "" && Contains(OUT, input)
    ensures p < |OUT| && 0 < q <= |OUT| && Contains(OUT[..p] + input + OUT[q..], OUT)
  {
    p :| 0 <= p <= |OUT| && input <= OUT[p..];
    q := p + |input|;
    assert OUT == OUT[..p] + OUT[p..];
    assert OUT[..p] + input + OUT[q..] == OUT;
    Found(OUT[..p], input, OUT[q..], 0, 0);
  }

  lemma BeginningTraps(input: string) returns (p: nat, q: nat)
    requires exists n | 0 < n < |OUT| :: OUT[n..] <= input
    ensures p < |OUT| && 0 < q <= |OUT| && Contains(OUT[..p] + input + OUT[q..], OUT)
  {
    p :| 0 < p < |OUT| && OUT[p..] <= input;
    q := |OUT|;
    var s := OUT[..p] + input + OUT[q..];
    assert s[0..] == OUT[..p] + OUT[p..] + input[|OUT| - p..];
    assert OUT[..p] + OUT[p..] == OUT;
    assert OUT <= s[0..];
  }

  // Two replacements one after the other equal one simultaneous substitution for every
  // command exactly when the input path does not clash with the second placeholder.
  lemma SubstitutionExact(input: string, output: string)
    ensures (forall command :: Expand(command, input, output) == Substitute(command, input, output))
            <==> output == OUT || !Clashes(input)
  {
    if output == OUT {
      forall command ensures Expand(command, input, output) == Substitute(command, input, output) {
        SelfExpands(command, input);
      }
    } else if !Clashes(input) {
      forall command ensures Expand(command, input, output) == Substitute(command, input, output) {
        SafeExpands(command, input, output);
      }
    } else {
      var p, q := ClashTraps(input);
      TrapCopied(p, q, input, output);
      ReplaceChanges(OUT[..p] + input + OUT[q..], OUT, output);
      assert Expand(Trap(p, q), input, output) != Substitute(Trap(p, q), input, output);
    }
  }

  // What a clashing path is made of.
  lemma ClashingCharacters(input: string)
    ensures Contains(OUT, input) ==> forall c | c in input :: c in OUT
    ensures Contains(input, OUT) ==> '{' in input
    ensures (exists n | 0 < n < |OUT| && n <= |input| :: input[|input| - n..] == OUT[..n]) ==> '{' in input
    ensures (exists n | 0 < n < |OUT| :: OUT[n..] <= input) ==> '}' in input
  {
    if Contains(OUT, input) {
      var k :| 0 <= k <= |OUT| && input <= OUT[k..];
      assert forall i | 0 <= i < |input| :: input[i] == OUT[k..][i];
    }
    if Contains(input, OUT) {
      var k :| 0 <= k <= |input| && OUT <= input[k..];
      assert input[k..][0] == '{';
    }
    if n :| 0 < n < |OUT| && n <= |input| && input[|input| - n..] == OUT[..n] {
      assert input[|input| - n..][0] == '{';
    }
    if n :| 0 < n < |OUT| && OUT[n..] <= input {
      assert OUT[n..][|OUT| - n - 1] == '}';
    }
  }

  // Ordinary paths do not clash: no brace, and something besides the letters of "output".
  lemma OrdinaryPaths(input: string)
    requires '{' !in input && '}' !in input
    requires exists c :: c in input && c !in "output"
    ensures !Clashes(input)
  {
    hide Contains;
    ClashingCharacters(input);
    assert OUT == ['{'] + "output" + ['}'];
  }

  // A job without input has the empty path, and then the two differ.
  lemma EmptyPathClashes(output: string)
    requires output != OUT
    ensures Expand("{out{input}put}", "", output) == output
    ensures Substitute("{out{input}put}", "", output) == OUT
  {
    var c := "{out{input}put}";
    assert Trap(4, 4) == c;
    TrapCopied(4, 4, "", output);
    assert OUT[..4] + "" + OUT[4..] == OUT;
    assert OUT[|OUT|..] == "";
    assert ReplaceAll(OUT, OUT, output) == output + "";
  }
}
