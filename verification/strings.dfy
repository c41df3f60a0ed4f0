/** Python string operations: stripping, searching, splitting and joining. */
module Strings {
  import opened Wrappers

  function Replace(s: string, from: char, to: char): (r: string)
    ensures |r| == |s| && forall i | 0 <= i < |s| :: r[i] == if s[i] == from then to else s[i]
  {
    seq(|s|, i requires 0 <= i < |s| => if s[i] == from then to else s[i])
  }

  /** Python's whitespace, as `str.strip()` removes it. */
  predicate IsSpace(c: char)
  {
    var n := c as int;
    9 <= n <= 13 || 28 <= n <= 32 || n == 0x85 || n == 0xA0 || n == 0x1680 || 0x2000 <= n <= 0x200A ||
    n == 0x2028 || n == 0x2029 || n == 0x202F || n == 0x205F || n == 0x3000
  }

  /** What is stripped: whitespace or slashes. */
  datatype Class = Space | Slash

  predicate In(c: char, what: Class)
  {
    if what == Space then IsSpace(c) else c == '/'
  }

  function StripLeft(s: string, what: Class): string
  {
    if s != "" && In(s[0], what) then StripLeft(s[1..], what) else s
  }

  function StripRight(s: string, what: Class): string
  {
    if s != "" && In(s[|s| - 1], what) then StripRight(s[..|s| - 1], what) else s
  }

  lemma {:induction false} StripLeftShape(s: string, what: Class) returns (a: string)
    ensures s == a + StripLeft(s, what) && forall i | 0 <= i < |a| :: In(a[i], what)
  {
    if s != "" && In(s[0], what) {
      a := StripLeftShape(s[1..], what);
      a := [s[0]] + a;
    } else {
      a := "";
    }
  }

  lemma {:induction false} StripRightShape(s: string, what: Class) returns (b: string)
    ensures s == StripRight(s, what) + b && forall i | 0 <= i < |b| :: In(b[i], what)
  {
    if s != "" && In(s[|s| - 1], what) {
      b := StripRightShape(s[..|s| - 1], what);
      b := b + [s[|s| - 1]];
    } else {
      b := "";
    }
  }

  function Strip(s: string, what: Class): string
  {
    StripRight(StripLeft(s, what), what)
  }

  /** The first position of `c`. */
  function Find(s: string, c: char): (r: Option<nat>)
    ensures r.None? ==> c !in s
    ensures r.Some? ==> r.value < |s| && s[r.value] == c && c !in s[..r.value]
  {
    if s == "" then None
    else if s[0] == c then Some(0)
    else
      var r := Find(s[1..], c);
      if r.None? then None else
        assert s[..r.value + 1] == [s[0]] + s[1..][..r.value];
        Some(r.value + 1)
  }

  lemma StripLeftNothing(s: string, what: Class)
    requires s == "" || !In(s[0], what)
    ensures StripLeft(s, what) == s
  {
  }

  lemma {:induction false} FindAt(s: string, c: char, i: nat)
    requires i < |s| && s[i] == c && c !in s[..i]
    ensures Find(s, c) == Some(i)
  {
    if i > 0 {
      assert s[..i][0] == s[0] && s[1..][..i - 1] == s[..i][1..];
      FindAt(s[1..], c, i - 1);
    }
  }

  // ---------------------------------------------------------------- lines and words

  /** The text before the first character that satisfies `stop`. */
  function Until(s: string, stop: char -> bool): (r: string)
    ensures |r| <= |s| && r == s[..|r|]
    ensures forall i | 0 <= i < |r| :: !stop(r[i])
    ensures |r| < |s| ==> stop(s[|r|])
  {
    if s == "" || stop(s[0]) then "" else [s[0]] + Until(s[1..], stop)
  }

  lemma {:induction false} UntilStops(a: string, c: char, rest: string, stop: char -> bool)
    requires (forall i | 0 <= i < |a| :: !stop(a[i])) && stop(c)
    ensures Until(a + [c] + rest, stop) == a
  {
    if a == "" {
      assert (a + [c] + rest)[0] == c;
    } else {
      UntilStops(a[1..], c, rest, stop);
      assert (a + [c] + rest)[1..] == a[1..] + [c] + rest;
      assert a == [a[0]] + a[1..];
    }
  }

  /** Line boundaries of `str.splitlines`. */
  predicate IsBreak(c: char)
  {
    var n := c as int;
    10 <= n <= 13 || 28 <= n <= 30 || n == 0x85 || n == 0x2028 || n == 0x2029
  }

  /** `s.splitlines()`. */
  function Lines(s: string): seq<string>
  {
    if s == "" then []
    else
      var line := Until(s, IsBreak);
      if |line| == |s| then [line]
      else if |line| + 1 < |s| && s[|line|] == '\r' && s[|line| + 1] == '\n' then [line] + Lines(s[|line| + 2..])
      else [line] + Lines(s[|line| + 1..])
  }

  lemma {:induction false} LinesUnbroken(s: string)
    ensures forall i | 0 <= i < |Lines(s)| :: '\n' !in Lines(s)[i]
  {
    if s != "" {
      var line := Until(s, IsBreak);
      if |line| == |s| {
      } else if |line| + 1 < |s| && s[|line|] == '\r' && s[|line| + 1] == '\n' {
        LinesUnbroken(s[|line| + 2..]);
      } else {
        LinesUnbroken(s[|line| + 1..]);
      }
    }
  }

  /** `s.split()`: the maximal runs of characters other than whitespace. */
  function Tokens(s: string): seq<string>
    decreases |s|
  {
    if s == "" then []
    else if IsSpace(s[0]) then Tokens(s[1..])
    else
      var word := Until(s, IsSpace);
      [word] + Tokens(s[|word|..])
  }

  /** Whitespace divides the tokens of a text. */
  lemma {:induction false} TokensConcat(a: string, c: char, b: string)
    requires IsSpace(c)
    ensures Tokens(a + [c] + b) == Tokens(a) + Tokens(b)
    decreases |a|
  {
    var s := a + [c] + b;
    if a == "" {
      assert s[1..] == b && s[0] == c;
    } else if IsSpace(a[0]) {
      TokensConcat(a[1..], c, b);
      assert s[0] == a[0] && s[1..] == a[1..] + [c] + b;
    } else {
      var word := Until(a, IsSpace);
      UntilSame(a, c, b);
      TokensConcat(a[|word|..], c, b);
      assert s[0] == a[0] && s[|word|..] == a[|word|..] + [c] + b;
      assert Tokens(s) == [word] + Tokens(s[|word|..]);
    }
  }

  lemma {:induction false} UntilSame(a: string, c: char, b: string)
    requires IsSpace(c)
    ensures Until(a + [c] + b, IsSpace) == Until(a, IsSpace)
  {
    if a == "" || IsSpace(a[0]) {
      assert (a + [c] + b)[0] == if a == "" then c else a[0];
    } else {
      UntilSame(a[1..], c, b);
      assert (a + [c] + b)[1..] == a[1..] + [c] + b;
    }
  }

  /** `s.splitlines()` and then `split()` on every line gives the tokens of the text. */
  lemma {:induction false} TokensOfLines(s: string)
    ensures AllTokens(Lines(s)) == Tokens(s)
    decreases |s|
  {
    if s != "" {
      var line := Until(s, IsBreak);
      if |line| < |s| {
        var n := |line|;
        var rest := s[n + 1..];
        assert s == line + [s[n]] + rest;
        TokensConcat(line, s[n], rest);
        if n + 1 < |s| && s[n] == '\r' && s[n + 1] == '\n' {
          TokensOfLines(s[n + 2..]);
          assert rest[1..] == s[n + 2..];
          assert Lines(s) == [line] + Lines(s[n + 2..]);
        } else {
          TokensOfLines(rest);
          assert Lines(s) == [line] + Lines(rest);
        }
      } else {
        assert line == s && Lines(s) == [line];
        assert AllTokens([line]) == Tokens(line) + AllTokens([]);
      }
    }
  }

  /** The tokens of all lines, in order. */
  function AllTokens(lines: seq<string>): seq<string>
  {
    if lines == [] then [] else Tokens(lines[0]) + AllTokens(lines[1..])
  }

  // ---------------------------------------------------------------- letters

  function LowerChar(c: char): char
  {
    if 'A' <= c <= 'Z' then (c as int + 32) as char else c
  }

  /** `s.lower()` as far as ASCII letters are concerned. */
  function Lower(s: string): (r: string)
    ensures |r| == |s| && forall i | 0 <= i < |s| :: r[i] == LowerChar(s[i])
  {
    seq(|s|, i requires 0 <= i < |s| => LowerChar(s[i]))
  }

  predicate IsHex(c: char)
  {
    '0' <= c <= '9' || 'a' <= c <= 'f'
  }

  /** A full lowercase 40-character commit SHA. */
  predicate IsSha(s: string)
  {
    |s| == 40 && forall i | 0 <= i < |s| :: IsHex(s[i])
  }

  predicate StartsWith(s: string, prefix: string)
  {
    |prefix| <= |s| && s[..|prefix|] == prefix
  }

  predicate EndsWith(s: string, suffix: string)
  {
    |suffix| <= |s| && s[|s| - |suffix|..] == suffix
  }

  // ---------------------------------------------------------------- split and join

  /** `s.split(sep)`. */
  function Split(s: string, sep: char): (parts: seq<string>)
    ensures parts != [] && forall i | 0 <= i < |parts| :: sep !in parts[i]
  {
    if s == "" then [""] else Cons(s[0], Split(s[1..], sep), sep)
  }

  function Join(parts: seq<string>, sep: char): string
  {
    if |parts| == 0 then "" else if |parts| == 1 then parts[0] else parts[0] + [sep] + Join(parts[1..], sep)
  }

  lemma {:induction false} JoinSplit(s: string, sep: char)
    ensures Join(Split(s, sep), sep) == s
  {
    if s != "" {
      JoinSplit(s[1..], sep);
      var rest := Split(s[1..], sep);
      if s[0] == sep {
        assert ([""] + rest)[1..] == rest;
      } else {
        assert ([[s[0]] + rest[0]] + rest[1..])[1..] == rest[1..];
      }
    }
  }

  /** What `Split` does with one more character in front. */
  function Cons(c: char, parts: seq<string>, sep: char): seq<string>
    requires parts != []
  {
    if c == sep then [""] + parts else [[c] + parts[0]] + parts[1..]
  }

  lemma ConsConcat(c: char, a: seq<string>, b: seq<string>, sep: char)
    requires a != []
    ensures Cons(c, a + b, sep) == Cons(c, a, sep) + b
  {
    if c == sep {
      assert [""] + (a + b) == [""] + a + b;
    } else {
      assert (a + b)[0] == a[0] && (a + b)[1..] == a[1..] + b;
      assert [[c] + a[0]] + (a[1..] + b) == [[c] + a[0]] + a[1..] + b;
    }
  }

  lemma {:induction false} SplitConcat(u: string, v: string, sep: char)
    ensures Split(u + [sep] + v, sep) == Split(u, sep) + Split(v, sep)
  {
    if u == "" {
      assert (u + [sep] + v)[1..] == v;
    } else {
      SplitConcat(u[1..], v, sep);
      assert (u + [sep] + v)[1..] == u[1..] + [sep] + v && (u + [sep] + v)[0] == u[0];
      ConsConcat(u[0], Split(u[1..], sep), Split(v, sep), sep);
    }
  }

  lemma {:induction false} SplitSegment(s: string, sep: char)
    requires sep !in s
    ensures Split(s, sep) == [s]
  {
    if s != "" {
      SplitSegment(s[1..], sep);
      assert [s[0]] + s[1..] == s;
    }
  }

  lemma {:induction false} SplitJoin(parts: seq<string>, sep: char)
    requires parts != [] && forall i | 0 <= i < |parts| :: sep !in parts[i]
    ensures Split(Join(parts, sep), sep) == parts
  {
    SplitSegment(parts[0], sep);
    if |parts| > 1 {
      SplitJoin(parts[1..], sep);
      SplitConcat(parts[0], Join(parts[1..], sep), sep);
    }
  }

  lemma {:induction false} JoinConcat(a: seq<string>, b: seq<string>, sep: char)
    requires a != [] && b != []
    ensures Join(a + b, sep) == Join(a, sep) + [sep] + Join(b, sep)
  {
    if |a| == 1 {
      assert (a + b)[1..] == b;
    } else {
      JoinConcat(a[1..], b, sep);
      assert (a + b)[1..] == a[1..] + b;
    }
  }
}
