/**
 Splitting prompt text into statements: comments, fenced and quoted lines and headings are taken out, and the
 words of what remains are divided into statements.
 */
module Statements {
  import opened Wrappers
  import opened Strings

  // ---------------------------------------------------------------- comments

  /** What follows a comment, from behind its opening: up to `-->`, or to the end but for one last line break. */
  function AfterComment(s: string): (r: string)
    ensures |r| <= |s|
  {
    if StartsWith(s, "-->") then s[3..] else if s == "" || s == "\n" then s else AfterComment(s[1..])
  }

  function WithoutComments(s: string): string
    decreases |s|
  {
    if s == "" then ""
    else if StartsWith(s, "<!--") then WithoutComments(AfterComment(s[4..]))
    else [s[0]] + WithoutComments(s[1..])
  }

  /** The mark stands nowhere in `s` before position `n`. */
  ghost predicate FirstAt(s: string, mark: string, n: nat)
    requires n <= |s|
  {
    (forall i {:trigger s[i..]} | 0 <= i < n :: !StartsWith(s[i..], mark)) && StartsWith(s[n..], mark)
  }

  lemma FirstAtNext(s: string, mark: string, n: nat)
    requires 0 < n <= |s| && FirstAt(s, mark, n)
    ensures !StartsWith(s, mark) && FirstAt(s[1..], mark, n - 1)
  {
    assert s[0..] == s && s[1..][n - 1..] == s[n..];
    forall i {:trigger s[1..][i..]} | 0 <= i < n - 1
      ensures !StartsWith(s[1..][i..], mark)
    {
      assert s[1..][i..] == s[i + 1..];
    }
  }

  lemma {:induction false} TextBeforeComment(s: string, n: nat)
    requires n <= |s| && FirstAt(s, "<!--", n)
    ensures WithoutComments(s) == s[..n] + WithoutComments(s[n..])
  {
    if n == 0 {
      assert s[0..] == s;
    } else {
      FirstAtNext(s, "<!--", n);
      TextBeforeComment(s[1..], n - 1);
      assert s[..n] == [s[0]] + s[1..][..n - 1] && s[1..][n - 1..] == s[n..];
    }
  }

  lemma {:induction false} CommentEnds(s: string, n: nat)
    requires n <= |s| && FirstAt(s, "-->", n)
    ensures AfterComment(s) == s[n + 3..]
  {
    if n == 0 {
      assert s[0..] == s;
    } else {
      FirstAtNext(s, "-->", n);
      assert |s| >= n + 3;
      CommentEnds(s[1..], n - 1);
      assert s[1..][n - 1 + 3..] == s[n + 3..];
    }
  }

  /** The first comment is cut out up to the first `-->` behind its opening, whatever is in it. */
  lemma CommentRemoved(s: string, n: nat, m: nat)
    requires n + 4 <= |s| && FirstAt(s, "<!--", n) && m <= |s| - n - 4 && FirstAt(s[n + 4..], "-->", m)
    ensures n + 4 + m + 3 <= |s| && WithoutComments(s) == s[..n] + WithoutComments(s[n + 4 + m + 3..])
  {
    TextBeforeComment(s, n);
    CommentEnds(s[n + 4..], m);
    assert s[n..][4..] == s[n + 4..] && s[n + 4..][m + 3..] == s[n + 4 + m + 3..];
  }

  // ---------------------------------------------------------------- operative lines

  datatype Fence = Fence(mark: char, length: nat)

  /** What matters of a line: whether it is a fence delimiter, whether text follows the delimiter, and whether it is quoted. */
  datatype Mark = Mark(fence: Option<Fence>, bare: bool, quoted: bool)

  /** The length of the run of `c` at the beginning. */
  function Run(s: string, c: char): nat
  {
    if s != "" && s[0] == c then 1 + Run(s[1..], c) else 0
  }

  lemma {:induction false} RunExactly(s: string, c: char)
    ensures Run(s, c) <= |s| && (Run(s, c) < |s| ==> s[Run(s, c)] != c)
    ensures forall i | 0 <= i < Run(s, c) :: s[i] == c
  {
    if s != "" && s[0] == c {
      RunExactly(s[1..], c);
    }
  }

  /** Delimiters are runs of at least three backticks or tildes at the beginning of the stripped line. */
  function Read(line: string): Mark
  {
    var s := Strip(line, Space);
    if s == "" then Mark(None, false, false)
    else if (s[0] == '`' || s[0] == '~') && Run(s, s[0]) >= 3 then
      RunExactly(s, s[0]);
      Mark(Some(Fence(s[0], Run(s, s[0]))), Strip(s[Run(s, s[0])..], Space) == "", false)
    else Mark(None, false, s[0] == '>')
  }

  function Marks(lines: seq<string>): (marks: seq<Mark>)
    ensures |marks| == |lines| && forall i | 0 <= i < |lines| :: marks[i] == Read(lines[i])
  {
    seq(|lines|, i requires 0 <= i < |lines| => Read(lines[i]))
  }

  /** Only the same character, at least as often, and with nothing after it, closes a fence. */
  predicate Closes(m: Mark, f: Fence)
  {
    m.fence.Some? && m.fence.value.mark == f.mark && m.fence.value.length >= f.length && m.bare
  }

  /** The fence that is open after the first `n` lines. */
  ghost function OpenFence(marks: seq<Mark>, n: nat): Option<Fence>
    requires n <= |marks|
  {
    if n == 0 then None else
      var before := OpenFence(marks, n - 1);
      if before.None? then marks[n - 1].fence
      else if Closes(marks[n - 1], before.value) then None
      else before
  }

  /** The line opens a fence: it stands outside every fence and is a delimiter. */
  ghost predicate Opens(marks: seq<Mark>, o: int, f: Fence)
    requires 0 <= o < |marks|
  {
    OpenFence(marks, o) == None && marks[o].fence == Some(f)
  }

  /** The fence opened at `o` is not closed between there and `i`. */
  ghost predicate StaysOpen(marks: seq<Mark>, o: int, i: nat, f: Fence)
    requires i <= |marks|
  {
    0 <= o < |marks| && Opens(marks, o, f) && forall k | o < k < i :: !Closes(marks[k], f)
  }

  /** Line `i` belongs to a fenced block: it opens one, or stands after an opening line that no line in between has closed. */
  ghost predicate InFence(marks: seq<Mark>, i: nat)
    requires i < |marks|
  {
    exists o, f :: o <= i && StaysOpen(marks, o, i, f)
  }

  /** A fence stays open exactly until the first line that closes it. */
  lemma {:induction false} OpenExactly(marks: seq<Mark>, n: nat, f: Fence)
    requires n <= |marks|
    ensures OpenFence(marks, n) == Some(f) <==> exists o :: o < n && StaysOpen(marks, o, n, f)
  {
    if n > 0 {
      OpenExactly(marks, n - 1, f);
      if OpenFence(marks, n) == Some(f) {
        if OpenFence(marks, n - 1) == None {
          assert StaysOpen(marks, n - 1, n, f);
        } else {
          var o :| o < n - 1 && StaysOpen(marks, o, n - 1, f);
          assert StaysOpen(marks, o, n, f);
        }
      }
      if o :| o < n && StaysOpen(marks, o, n, f) {
        if o < n - 1 {
          assert StaysOpen(marks, o, n - 1, f);
        }
      }
    }
  }

  lemma FencedExactly(marks: seq<Mark>, i: nat)
    requires i < |marks|
    ensures InFence(marks, i) <==> OpenFence(marks, i).Some? || marks[i].fence.Some?
  {
    if OpenFence(marks, i).Some? {
      var f := OpenFence(marks, i).value;
      OpenExactly(marks, i, f);
      var o :| o < i && StaysOpen(marks, o, i, f);
    } else if marks[i].fence.Some? {
      assert StaysOpen(marks, i, i, marks[i].fence.value);
    }
    if o, f :| o <= i && StaysOpen(marks, o, i, f) {
      OpenExactly(marks, i, f);
    }
  }

  ghost predicate Masked(marks: seq<Mark>, i: nat)
    requires i < |marks|
  {
    InFence(marks, i) || marks[i].quoted
  }

  /** Lines in fenced blocks and quoted lines become blank; every other line stays as it is. */
  ghost function MaskedLines(lines: seq<string>): (kept: seq<string>)
    ensures |kept| == |lines| && forall i | 0 <= i < |lines| :: kept[i] == if Masked(Marks(lines), i) then "" else lines[i]
  {
    seq(|lines|, i requires 0 <= i < |lines| => if Masked(Marks(lines), i) then "" else lines[i])
  }

  /** The lines of the text without comments, and without fenced and quoted lines. */
  method Operative(text: string) returns (kept: seq<string>)
    ensures kept == MaskedLines(Lines(WithoutComments(text)))
    ensures forall i | 0 <= i < |kept| :: '\n' !in kept[i]
  {
    var lines := Lines(WithoutComments(text));
    LinesUnbroken(WithoutComments(text));
    kept := Mask(lines, Marks(lines));
  }

  method Mask(lines: seq<string>, marks: seq<Mark>) returns (kept: seq<string>)
    requires |marks| == |lines|
    ensures |kept| == |lines|
    ensures forall i | 0 <= i < |lines| :: kept[i] == if Masked(marks, i) then "" else lines[i]
  {
    kept := [];
    var fence := None;
    for n := 0 to |lines|
      invariant |kept| == n && fence == OpenFence(marks, n)
      invariant forall i | 0 <= i < n :: kept[i] == if Masked(marks, i) then "" else lines[i]
    {
      FencedExactly(marks, n);
      var mark := marks[n];
      if fence.Some? {
        if Closes(mark, fence.value) {
          fence := None;
        }
        kept := kept + [""];
      } else if mark.fence.Some? {
        fence := mark.fence;
        kept := kept + [""];
      } else if mark.quoted {
        kept := kept + [""];
      } else {
        kept := kept + [lines[n]];
      }
    }
  }

  // ---------------------------------------------------------------- headings

  /** What follows the title of a heading: whitespace, which may reach over lines, and then the rest of that line. */
  function AfterTitle(s: string): (r: string)
    ensures |r| <= |s|
  {
    StripLeftLength(s);
    var title := StripLeft(s, Space);
    title[|Until(title, c => c == '\n')|..]
  }

  lemma {:induction false} StripLeftLength(s: string)
    ensures |StripLeft(s, Space)| <= |s|
  {
    if s != "" && In(s[0], Space) {
      StripLeftLength(s[1..]);
    }
  }

  /** What follows a heading that begins here, behind no more than `indent` characters of whitespace. */
  function AfterHeading(s: string, indent: nat): (r: Option<string>)
    ensures r.Some? ==> |r.value| < |s|
  {
    if s == "" then None
    else if IsSpace(s[0]) then (if indent == 0 then None else AfterHeading(s[1..], indent - 1))
    else
      var h := Run(s, '#');
      RunExactly(s, '#');
      if 1 <= h <= 6 && h < |s| && IsSpace(s[h]) then Some(AfterTitle(s[h..])) else None
  }

  /** The text without its headings; what a heading takes out begins where a line begins. */
  function WithoutHeadings(s: string, lineStart: bool): string
    decreases |s|
  {
    if s == "" then ""
    else if lineStart && AfterHeading(s, 3).Some? then WithoutHeadings(AfterHeading(s, 3).value, false)
    else [s[0]] + WithoutHeadings(s[1..], s[0] == '\n')
  }

  /** A line is no heading, a heading with a title on the line itself, or one that takes its title from a later line. */
  datatype Kind = Plain | Titled | Bare

  function KindOf(line: string, last: bool): Kind
  {
    var text := StripLeft(line, Space);
    var h := Run(text, '#');
    RunExactly(text, '#');
    if |line| - |text| > 3 || h == 0 || h > 6 || (h < |text| && !IsSpace(text[h])) then Plain
    else if StripLeft(text[h..], Space) != "" then Titled
    else if last && h == |text| then Plain
    else Bare
  }

  /** The lines without headings and without what headings take as their titles. */
  function Unheaded(lines: seq<string>): (r: seq<string>)
    ensures |r| == |lines| && forall i | 0 <= i < |r| :: r[i] == lines[i] || r[i] == ""
  {
    if lines == [] then []
    else match KindOf(lines[0], |lines| == 1)
      case Plain => [lines[0]] + Unheaded(lines[1..])
      case Titled => [""] + Unheaded(lines[1..])
      case Bare => [""] + Swallowed(lines[1..])
  }

  /** The lines behind a heading without title: blank lines and the first other line belong to it. */
  function Swallowed(lines: seq<string>): (r: seq<string>)
    ensures |r| == |lines| && forall i | 0 <= i < |r| :: r[i] == lines[i] || r[i] == ""
  {
    if lines == [] then []
    else [""] + if StripLeft(lines[0], Space) == "" then Swallowed(lines[1..]) else Unheaded(lines[1..])
  }

  /** What follows the first line: nothing, or a line break and the other lines. */
  function Following(lines: seq<string>): string
    requires lines != []
  {
    if |lines| == 1 then "" else "\n" + Join(lines[1..], '\n')
  }

  lemma {:induction false} StripLeftConcat(line: string, rest: string)
    requires rest == "" || IsSpace(rest[0])
    ensures StripLeft(line + rest, Space) ==
      if StripLeft(line, Space) == "" then StripLeft(rest, Space) else StripLeft(line, Space) + rest
  {
    if line == "" {
      assert line + rest == rest;
    } else if In(line[0], Space) {
      StripLeftConcat(line[1..], rest);
      assert (line + rest)[1..] == line[1..] + rest;
    }
  }

  lemma {:induction false} RunConcat(s: string, rest: string)
    requires rest == "" || rest[0] != '#'
    ensures Run(s + rest, '#') == Run(s, '#')
  {
    if s == "" {
      assert s + rest == rest;
    } else {
      RunConcat(s[1..], rest);
      assert (s + rest)[1..] == s[1..] + rest;
    }
  }

  lemma {:induction false} UntilBreak(s: string, rest: string)
    requires '\n' !in s && (rest == "" || rest[0] == '\n')
    ensures Until(s + rest, c => c == '\n') == s
  {
    if s == "" {
      assert s + rest == rest;
    } else {
      UntilBreak(s[1..], rest);
      assert (s + rest)[1..] == s[1..] + rest;
    }
  }

  /** Whether a heading begins at a line that is not blank shows on that line. */
  lemma {:induction false} HeadingAfterIndent(line: string, rest: string, indent: nat)
    requires StripLeft(line, Space) != ""
    ensures |StripLeft(line, Space)| <= |line|
    ensures AfterHeading(line + rest, indent) ==
      if |line| - |StripLeft(line, Space)| <= indent then AfterHeading(StripLeft(line, Space) + rest, 0) else None
  {
    if In(line[0], Space) {
      StripLeftLength(line[1..]);
      assert (line + rest)[1..] == line[1..] + rest;
      if indent > 0 {
        HeadingAfterIndent(line[1..], rest, indent - 1);
      }
    }
  }

  /** A heading found behind a blank line is found on its own line too. */
  lemma {:induction false} HeadingAfterBlank(blank: string, s: string, indent: nat)
    requires StripLeft(blank, Space) == "" && indent <= 3 && AfterHeading(blank + s, indent).Some?
    ensures AfterHeading(s, 3) == AfterHeading(blank + s, indent)
  {
    if blank == "" {
      assert blank + s == s;
      MoreIndent(s, indent, 3);
    } else {
      assert (blank + s)[1..] == blank[1..] + s;
      HeadingAfterBlank(blank[1..], s, indent - 1);
    }
  }

  lemma {:induction false} MoreIndent(s: string, less: nat, more: nat)
    requires less <= more && AfterHeading(s, less).Some?
    ensures AfterHeading(s, more) == AfterHeading(s, less)
  {
    if IsSpace(s[0]) {
      MoreIndent(s[1..], less - 1, more - 1);
    }
  }

  /** A line without heading is kept. */
  lemma {:induction false} LineKept(line: string, rest: string, lineStart: bool)
    requires '\n' !in line && (lineStart ==> AfterHeading(line + rest, 3).None?)
    ensures WithoutHeadings(line + rest, lineStart) == line + WithoutHeadings(rest, false)
  {
    if line == "" {
      assert line + rest == rest;
    } else {
      assert (line + rest)[1..] == line[1..] + rest;
      LineKept(line[1..], rest, false);
    }
  }

  /** What a heading on this very line takes out. */
  lemma HeadingOnLine(line: string, rest: string)
    requires '\n' !in line && (rest == "" || rest[0] == '\n') && StripLeft(line, Space) != ""
    ensures
      match KindOf(line, rest == "")
      case Plain => AfterHeading(line + rest, 3) == None
      case Titled => AfterHeading(line + rest, 3) == Some(rest)
      case Bare => AfterHeading(line + rest, 3) == Some(AfterTitle(rest))
  {
    var text := StripLeft(line, Space);
    var h := Run(text, '#');
    HeadingAfterIndent(line, rest, 3);
    StripLeftHead(line);
    RunExactly(text, '#');
    RunConcat(text, rest);
    if |line| - |text| <= 3 && 1 <= h <= 6 {
      assert h < |text| ==> (text + rest)[h] == text[h];
      assert (text + rest)[h..] == text[h..] + rest;
      TitleOf(text[h..], rest);
    }
  }

  lemma {:induction false} StripLeftHead(s: string)
    ensures StripLeft(s, Space) != "" ==> !IsSpace(StripLeft(s, Space)[0])
    ensures forall c | c in StripLeft(s, Space) :: c in s
  {
    if s != "" && In(s[0], Space) {
      StripLeftHead(s[1..]);
    }
  }

  lemma TitleOf(title: string, rest: string)
    requires rest == "" || rest[0] == '\n'
    requires '\n' !in title
    ensures AfterTitle(title + rest) == if StripLeft(title, Space) == "" then AfterTitle(rest) else rest
  {
    StripLeftConcat(title, rest);
    var text := StripLeft(title, Space);
    if text != "" {
      StripLeftHead(title);
      UntilBreak(text, rest);
      assert (text + rest)[|text|..] == rest;
    }
  }

  ghost predicate Unbroken(lines: seq<string>)
  {
    forall i | 0 <= i < |lines| :: '\n' !in lines[i]
  }

  lemma FollowingTokens(lines: seq<string>)
    requires lines != []
    ensures Tokens(WithoutHeadings(Following(lines), false)) ==
      if |lines| == 1 then [] else Tokens(WithoutHeadings(Join(lines[1..], '\n'), true))
  {
    if |lines| > 1 {
      var rest := Join(lines[1..], '\n');
      assert Following(lines)[1..] == rest;
    }
  }

  lemma KeptTokens(line: string, rest: string)
    requires rest == "" || IsSpace(rest[0])
    ensures Tokens(line + rest) == Tokens(line) + Tokens(rest)
  {
    if rest == "" {
      assert line + rest == line;
    } else {
      TokensConcat(line, rest[0], rest[1..]);
      assert line + rest == line + [rest[0]] + rest[1..];
    }
  }

  lemma {:induction false} BlankTokens(s: string)
    requires StripLeft(s, Space) == ""
    ensures Tokens(s) == []
  {
    if s != "" {
      BlankTokens(s[1..]);
    }
  }

  /** Taking out headings takes out exactly their lines and the lines that they take as titles. */
  lemma {:induction false} HeadingsByLine(lines: seq<string>)
    requires Unbroken(lines)
    ensures Tokens(WithoutHeadings(Join(lines, '\n'), true)) == AllTokens(Unheaded(lines))
    decreases |lines|
  {
    if lines != [] {
      var line, rest := lines[0], Following(lines);
      assert Join(lines, '\n') == line + rest;
      HeadingsByLine(lines[1..]);
      FollowingTokens(lines);
      if StripLeft(line, Space) == "" {
        BlankLine(lines);
      } else {
        HeadingOnLine(line, rest);
        match KindOf(line, |lines| == 1) {
          case Plain =>
            LineKept(line, rest, true);
            KeptTokens(line, WithoutHeadings(rest, false));
          case Titled =>
            assert Tokens("") == [];
          case Bare =>
            SwallowedByLine(lines[1..]);
            BareHeading(lines);
        }
      }
    }
  }

  lemma BlankLine(lines: seq<string>)
    requires lines != [] && Unbroken(lines) && StripLeft(lines[0], Space) == ""
    requires Tokens(WithoutHeadings(Join(lines[1..], '\n'), true)) == AllTokens(Unheaded(lines[1..]))
    ensures Tokens(WithoutHeadings(Join(lines, '\n'), true)) == AllTokens(Unheaded(lines))
  {
    var line, rest := lines[0], Following(lines);
    assert Join(lines, '\n') == line + rest;
    BlankTokens(line);
    assert KindOf(line, |lines| == 1) == Plain;
    if AfterHeading(line + rest, 3).Some? {
      BlankBeforeHeading(lines);
    } else {
      LineKept(line, rest, true);
      KeptTokens(line, WithoutHeadings(rest, false));
      FollowingTokens(lines);
    }
  }

  /** A heading may reach back over a blank line, and then takes out what it takes out on its own line. */
  lemma BlankBeforeHeading(lines: seq<string>)
    requires lines != [] && StripLeft(lines[0], Space) == "" && AfterHeading(lines[0] + Following(lines), 3).Some?
    ensures |lines| > 1
    ensures WithoutHeadings(lines[0] + Following(lines), true) == WithoutHeadings(Join(lines[1..], '\n'), true)
  {
    var rest, others := Following(lines), Join(lines[1..], '\n');
    HeadingAfterBlank(lines[0], rest, 3);
    assert rest[1..] == others;
    MoreIndent(others, 2, 3);
  }

  lemma BreakBeforeTitle(s: string)
    ensures AfterTitle("\n" + s) == AfterTitle(s)
  {
    assert ("\n" + s)[1..] == s;
  }

  lemma BareHeading(lines: seq<string>)
    requires lines != []
    requires Tokens(WithoutHeadings(AfterTitle(Join(lines[1..], '\n')), false)) == AllTokens(Swallowed(lines[1..]))
    ensures Tokens(WithoutHeadings(AfterTitle(Following(lines)), false)) == AllTokens([""] + Swallowed(lines[1..]))
  {
    assert ([""] + Swallowed(lines[1..]))[1..] == Swallowed(lines[1..]);
    assert Tokens("") == [];
    if |lines| > 1 {
      BreakBeforeTitle(Join(lines[1..], '\n'));
    }
  }

  lemma {:induction false} SwallowedByLine(lines: seq<string>)
    requires Unbroken(lines)
    ensures Tokens(WithoutHeadings(AfterTitle(Join(lines, '\n')), false)) == AllTokens(Swallowed(lines))
    decreases |lines|
  {
    if lines != [] {
      var line, rest := lines[0], Following(lines);
      assert Join(lines, '\n') == line + rest;
      TitleOf(line, rest);
      if StripLeft(line, Space) == "" {
        SwallowedByLine(lines[1..]);
        BareHeading(lines);
      } else {
        HeadingsByLine(lines[1..]);
        FollowingTokens(lines);
        assert ([""] + Unheaded(lines[1..]))[1..] == Unheaded(lines[1..]);
        assert Tokens("") == [];
      }
    }
  }

  // ---------------------------------------------------------------- statements

  /** A word of normalized text. */
  datatype Word = Word(text: string)

  type Words = seq<Word>

  function Worded(tokens: seq<string>): Words
  {
    seq(|tokens|, i requires 0 <= i < |tokens| => Word(tokens[i]))
  }

  /** The words of each line; a blank line has none. */
  function LineWords(lines: seq<string>): (r: seq<Words>)
    ensures |r| == |lines| && forall i | 0 <= i < |r| :: r[i] == Worded(Tokens(lines[i]))
  {
    seq(|lines|, i requires 0 <= i < |lines| => Worded(Tokens(lines[i])))
  }

  /** The patterns that steer the splitter, as predicates on the words they are matched against. */
  datatype Patterns = Patterns(
    item: Words -> bool,
    starter: Words -> bool,
    directive: Words -> bool,
    unfinished: Words -> bool,
    auditOrNegative: Words -> bool,
    incompleteNegative: Words -> bool)

  ghost function Concat(lines: seq<Words>): Words
  {
    if lines == [] then [] else Concat(lines[..|lines| - 1]) + lines[|lines| - 1]
  }

  lemma ConcatLast(lines: seq<Words>, line: Words)
    ensures Concat(lines + [line]) == Concat(lines) + line
  {
    assert (lines + [line])[..|lines|] == lines;
  }

  lemma Regroup(a: Words, b: Words, c: Words)
    ensures a + b + c == a + (b + c)
  {
  }

  lemma {:induction false} ConcatAppend(a: seq<Words>, b: seq<Words>)
    ensures Concat(a + b) == Concat(a) + Concat(b)
  {
    if b == [] {
      assert a + b == a;
    } else {
      var n := |b| - 1;
      ConcatAppend(a, b[..n]);
      assert b == b[..n] + [b[n]];
      assert a + b == (a + b[..n]) + [b[n]];
      ConcatLast(a + b[..n], b[n]);
      Regroup(Concat(a), Concat(b[..n]), b[n]);
    }
  }

  /** The words of all lines, in order. */
  lemma {:induction false} LineWordsConcat(lines: seq<string>)
    ensures Concat(LineWords(lines)) == Worded(AllTokens(lines))
  {
    if lines != [] {
      LineWordsConcat(lines[1..]);
      assert LineWords(lines) == [Worded(Tokens(lines[0]))] + LineWords(lines[1..]);
      ConcatAppend([Worded(Tokens(lines[0]))], LineWords(lines[1..]));
      ConcatLast([], Worded(Tokens(lines[0])));
      assert [] + [Worded(Tokens(lines[0]))] == [Worded(Tokens(lines[0]))];
    }
  }

  predicate EndsSentence(word: Word)
  {
    word.text != "" && word.text[|word.text| - 1] in {'.', '!', '?', ';'}
  }

  /** A text split after every word that ends a sentence. */
  function Sentences(text: Words): (parts: seq<Words>)
    ensures text != [] ==> parts != []
  {
    if text == [] then [] else
      var n := |text| - 1;
      var before := Sentences(text[..n]);
      if n > 0 && !EndsSentence(text[n - 1])
      then before[..|before| - 1] + [before[|before| - 1] + [text[n]]]
      else before + [[text[n]]]
  }

  /** A statement holds at least one word, and only its last word may end a sentence. */
  ghost predicate OneSentence(s: Words)
  {
    s != [] && forall i | 0 <= i < |s| - 1 :: !EndsSentence(s[i])
  }

  ghost predicate Ended(s: Words)
  {
    s != [] && EndsSentence(s[|s| - 1])
  }

  /** Every part is one sentence, and every part but the last is ended. */
  ghost predicate AllSentences(parts: seq<Words>)
  {
    (forall k | 0 <= k < |parts| :: OneSentence(parts[k])) && forall k | 0 <= k < |parts| - 1 :: Ended(parts[k])
  }

  lemma {:induction false} SentencesConcat(text: Words)
    ensures Concat(Sentences(text)) == text
    ensures text != [] ==> Sentences(text)[|Sentences(text)| - 1] != []
    ensures text != [] ==>
      var last := Sentences(text)[|Sentences(text)| - 1]; last[|last| - 1] == text[|text| - 1]
  {
    if text != [] {
      var n := |text| - 1;
      SentencesConcat(text[..n]);
      var before := Sentences(text[..n]);
      assert text == text[..n] + [text[n]];
      if n > 0 && !EndsSentence(text[n - 1]) {
        var m := |before| - 1;
        ConcatLast(before[..m], before[m] + [text[n]]);
      } else {
        ConcatLast(before, [text[n]]);
      }
    }
  }

  lemma {:induction false} SentencesSplit(text: Words)
    ensures AllSentences(Sentences(text))
  {
    if text != [] {
      var n := |text| - 1;
      SentencesSplit(text[..n]);
      SentencesConcat(text[..n]);
      var before := Sentences(text[..n]);
      if n > 0 && !EndsSentence(text[n - 1]) {
        WordContinues(before, text[n]);
      } else {
        WordStarts(before, text[n]);
      }
    }
  }

  lemma WordContinues(parts: seq<Words>, word: Word)
    requires AllSentences(parts) && parts != [] && !Ended(parts[|parts| - 1])
    ensures AllSentences(parts[..|parts| - 1] + [parts[|parts| - 1] + [word]])
  {
    assert OneSentence(parts[|parts| - 1]);
    assert OneSentence(parts[|parts| - 1] + [word]);
  }

  lemma WordStarts(parts: seq<Words>, word: Word)
    requires AllSentences(parts) && (parts != [] ==> Ended(parts[|parts| - 1]))
    ensures AllSentences(parts + [[word]])
  {
    assert OneSentence([word]);
  }

  // ---------------------------------------------------------------- where statements begin

  /** The first `k` statements hold exactly the words of the first `i` lines. */
  ghost predicate BoundaryAt(result: seq<Words>, lines: seq<Words>, k: int, i: int)
  {
    0 <= k <= |result| && 0 <= i <= |lines| && Concat(result[..k]) == Concat(lines[..i])
  }

  /** A statement ends where line `i` begins. */
  ghost predicate Bounded(result: seq<Words>, lines: seq<Words>, i: int)
  {
    exists k :: BoundaryAt(result, lines, k, i)
  }

  predicate Begins(pt: Patterns, line: Words)
  {
    pt.starter(line) || pt.directive(line)
  }

  /** Blank lines and list items always stand at a boundary. */
  ghost predicate MustBreak(pt: Patterns, lines: seq<Words>, i: int)
  {
    0 <= i < |lines| && (lines[i] == [] || pt.item(lines[i]))
  }

  /** Whether a directive that follows these lines continues them instead of beginning a statement. */
  predicate Incomplete(pt: Patterns, pending: seq<Words>)
    requires pending != []
  {
    pt.unfinished(pending[|pending| - 1]) &&
    (!pt.auditOrNegative(Flatten(pending)) || pt.incompleteNegative(Flatten(pending)))
  }

  /** Line `i` continues what began at the boundary `p`, without a blank line in between. */
  ghost predicate ContinuesFrom(pt: Patterns, lines: seq<Words>, result: seq<Words>, p: int, i: int)
  {
    0 <= p < i < |lines| && Bounded(result, lines, p) && (forall k | p <= k <= i :: lines[k] != []) &&
    Incomplete(pt, lines[p..i])
  }

  /** A line with a directive stands at a boundary, unless it continues something incomplete. */
  ghost predicate DirectivePlaced(pt: Patterns, lines: seq<Words>, result: seq<Words>, i: int)
  {
    Bounded(result, lines, i) || exists p :: ContinuesFrom(pt, lines, result, p, i)
  }

  /** The only places where a boundary that no sentence end explains may be. */
  ghost predicate MayBreak(pt: Patterns, lines: seq<Words>, i: int)
  {
    0 < i < |lines| && (lines[i - 1] == [] || pt.item(lines[i]) || Begins(pt, lines[i]))
  }

  ghost predicate AllBounded(pt: Patterns, lines: seq<Words>, n: int, result: seq<Words>)
  {
    forall i {:trigger Bounded(result, lines, i)} {:trigger MustBreak(pt, lines, i)} ::
      i < n && MustBreak(pt, lines, i) ==> Bounded(result, lines, i)
  }

  ghost predicate AllDirectives(pt: Patterns, lines: seq<Words>, n: int, result: seq<Words>)
  {
    forall i {:trigger DirectivePlaced(pt, lines, result, i)} ::
      0 <= i < n && i < |lines| && lines[i] != [] && Begins(pt, lines[i]) ==> DirectivePlaced(pt, lines, result, i)
  }

  /** The statement before position `k` ends a sentence, or position `k` is the beginning of a line that may begin a statement. */
  ghost predicate Justified(pt: Patterns, lines: seq<Words>, result: seq<Words>, k: int)
  {
    0 < k < |result| && (Ended(result[k - 1]) || exists i :: BoundaryAt(result, lines, k, i) && MayBreak(pt, lines, i))
  }

  ghost predicate AllJustified(pt: Patterns, lines: seq<Words>, result: seq<Words>)
  {
    forall k {:trigger Justified(pt, lines, result, k)} | 0 < k < |result| :: Justified(pt, lines, result, k)
  }

  ghost predicate EachSentence(result: seq<Words>)
  {
    forall k {:trigger OneSentence(result[k])} | 0 <= k < |result| :: OneSentence(result[k])
  }

  lemma BoundedLonger(result: seq<Words>, more: seq<Words>, lines: seq<Words>, i: int)
    requires Bounded(result, lines, i)
    ensures Bounded(result + more, lines, i)
  {
    var k :| BoundaryAt(result, lines, k, i);
    assert (result + more)[..k] == result[..k];
    assert BoundaryAt(result + more, lines, k, i);
  }

  lemma AllBoundedLonger(pt: Patterns, lines: seq<Words>, n: int, result: seq<Words>, more: seq<Words>)
    requires AllBounded(pt, lines, n, result)
    ensures AllBounded(pt, lines, n, result + more)
  {
    forall i | i < n && MustBreak(pt, lines, i)
      ensures Bounded(result + more, lines, i)
    {
      BoundedLonger(result, more, lines, i);
    }
  }

  lemma DirectiveLonger(pt: Patterns, lines: seq<Words>, result: seq<Words>, more: seq<Words>, i: int)
    requires DirectivePlaced(pt, lines, result, i)
    ensures DirectivePlaced(pt, lines, result + more, i)
  {
    if Bounded(result, lines, i) {
      BoundedLonger(result, more, lines, i);
    } else {
      var p :| ContinuesFrom(pt, lines, result, p, i);
      BoundedLonger(result, more, lines, p);
      assert ContinuesFrom(pt, lines, result + more, p, i);
    }
  }

  lemma AllDirectivesLonger(pt: Patterns, lines: seq<Words>, n: int, result: seq<Words>, more: seq<Words>)
    requires AllDirectives(pt, lines, n, result)
    ensures AllDirectives(pt, lines, n, result + more)
  {
    forall i | 0 <= i < n && i < |lines| && lines[i] != [] && Begins(pt, lines[i])
      ensures DirectivePlaced(pt, lines, result + more, i)
    {
      DirectiveLonger(pt, lines, result, more, i);
    }
  }

  lemma JustifiedLonger(pt: Patterns, lines: seq<Words>, result: seq<Words>, more: seq<Words>, k: int)
    requires Justified(pt, lines, result, k)
    ensures Justified(pt, lines, result + more, k)
  {
    assert (result + more)[..k] == result[..k] && (result + more)[k - 1] == result[k - 1];
    if i :| BoundaryAt(result, lines, k, i) && MayBreak(pt, lines, i) {
      assert BoundaryAt(result + more, lines, k, i);
    }
  }

  /** Where the pending lines began: the statements so far hold the words before line `p`. */
  ghost predicate PendingFrom(pt: Patterns, lines: seq<Words>, result: seq<Words>, p: int)
  {
    0 <= p < |lines| && Concat(result) == Concat(lines[..p]) && (result != [] ==> MayBreak(pt, lines, p))
  }

  lemma EachSentenceAppend(result: seq<Words>, more: seq<Words>)
    requires EachSentence(result) && AllSentences(more)
    ensures EachSentence(result + more)
  {
    forall k | 0 <= k < |result + more|
      ensures OneSentence((result + more)[k])
    {
      assert (result + more)[k] == if k < |result| then result[k] else more[k - |result|];
    }
  }

  lemma FlushedJustified(pt: Patterns, lines: seq<Words>, result: seq<Words>, more: seq<Words>, p: int, k: int)
    requires AllJustified(pt, lines, result) && PendingFrom(pt, lines, result, p) && AllSentences(more)
    requires 0 < k < |result + more|
    ensures Justified(pt, lines, result + more, k)
  {
    if k < |result| {
      assert Justified(pt, lines, result, k);
      JustifiedLonger(pt, lines, result, more, k);
    } else if k == |result| {
      assert (result + more)[..k] == result;
      assert BoundaryAt(result + more, lines, k, p);
    } else {
      var m := k - |result| - 1;
      assert (result + more)[k - 1] == more[m] && Ended(more[m]);
    }
  }

  /** Turning the pending words into statements keeps every boundary justified. */
  lemma FlushJustified(pt: Patterns, lines: seq<Words>, result: seq<Words>, text: Words, p: int)
    requires AllJustified(pt, lines, result) && EachSentence(result) && PendingFrom(pt, lines, result, p)
    ensures AllJustified(pt, lines, result + Sentences(text)) && EachSentence(result + Sentences(text))
    ensures Concat(result + Sentences(text)) == Concat(result) + text
  {
    var more := Sentences(text);
    SentencesConcat(text);
    SentencesSplit(text);
    ConcatAppend(result, more);
    EachSentenceAppend(result, more);
    forall k | 0 < k < |result + more|
      ensures Justified(pt, lines, result + more, k)
    {
      FlushedJustified(pt, lines, result, more, p, k);
    }
  }

  /** Everything the splitter maintains after `n` lines; the pending lines are those from `p` on. */
  ghost predicate Splitting(pt: Patterns, lines: seq<Words>, n: int, result: seq<Words>, pending: seq<Words>, p: int)
  {
    0 <= n <= |lines| && AllJustified(pt, lines, result) && EachSentence(result) &&
    Concat(result) + Concat(pending) == Concat(lines[..n]) && (n == 0 ==> result == []) &&
    if pending == [] then n == 0 || lines[n - 1] == [] || MayBreak(pt, lines, n)
    else PendingFrom(pt, lines, result, p) && p < n && pending == lines[p..n] && forall k | p <= k < n :: lines[k] != []
  }

  method Flush(pt: Patterns, lines: seq<Words>, ghost n: int, result: seq<Words>, pending: seq<Words>, ghost p: int)
    returns (flushed: seq<Words>)
    requires Splitting(pt, lines, n, result, pending, p) && AllBounded(pt, lines, n, result) && AllDirectives(pt, lines, n, result)
    ensures AllJustified(pt, lines, flushed) && EachSentence(flushed) && AllBounded(pt, lines, n, flushed)
    ensures AllDirectives(pt, lines, n, flushed)
    ensures Concat(flushed) == Concat(lines[..n]) && (n == 0 ==> flushed == [])
  {
    flushed := result;
    if pending != [] {
      var text := Flatten(pending);
      FlushJustified(pt, lines, result, text, p);
      AllBoundedLonger(pt, lines, n, result, Sentences(text));
      AllDirectivesLonger(pt, lines, n, result, Sentences(text));
      flushed := result + Sentences(text);
    }
  }

  function Flatten(lines: seq<Words>): (words: Words)
    ensures words == Concat(lines)
  {
    if lines == [] then [] else Flatten(lines[..|lines| - 1]) + lines[|lines| - 1]
  }

  lemma NextBounded(pt: Patterns, lines: seq<Words>, n: int, result: seq<Words>)
    requires AllBounded(pt, lines, n, result) && 0 <= n < |lines|
    requires MustBreak(pt, lines, n) ==> Concat(result) == Concat(lines[..n])
    ensures AllBounded(pt, lines, n + 1, result)
  {
    if MustBreak(pt, lines, n) {
      assert result[..|result|] == result;
      assert BoundaryAt(result, lines, |result|, n);
    }
  }

  lemma NextConcat(lines: seq<Words>, n: int)
    requires 0 <= n < |lines|
    ensures Concat(lines[..n + 1]) == Concat(lines[..n]) + lines[n]
  {
    assert lines[..n + 1] == lines[..n] + [lines[n]];
    ConcatLast(lines[..n], lines[n]);
  }

  lemma BoundedHere(result: seq<Words>, lines: seq<Words>, n: int)
    requires 0 <= n <= |lines| && Concat(result) == Concat(lines[..n])
    ensures Bounded(result, lines, n)
  {
    assert result[..|result|] == result;
    assert BoundaryAt(result, lines, |result|, n);
  }

  lemma NextDirective(pt: Patterns, lines: seq<Words>, n: int, result: seq<Words>)
    requires AllDirectives(pt, lines, n, result) && 0 <= n < |lines|
    requires lines[n] != [] && Begins(pt, lines[n]) ==> DirectivePlaced(pt, lines, result, n)
    ensures AllDirectives(pt, lines, n + 1, result)
  {
  }

  /** The next line joins the pending ones or starts a statement of its own. */
  lemma NextPending(pt: Patterns, lines: seq<Words>, n: int, result: seq<Words>, pending: seq<Words>, p: int)
    requires Splitting(pt, lines, n, result, pending, p) && AllBounded(pt, lines, n, result) && AllDirectives(pt, lines, n, result)
    requires n < |lines| && lines[n] != []
    requires pending != [] ==> !pt.item(lines[n]) && (Begins(pt, lines[n]) ==> Incomplete(pt, pending))
    ensures Splitting(pt, lines, n + 1, result, pending + [lines[n]], if pending == [] then n else p)
    ensures AllBounded(pt, lines, n + 1, result) && AllDirectives(pt, lines, n + 1, result)
  {
    NextConcat(lines, n);
    ConcatLast(pending, lines[n]);
    NextBounded(pt, lines, n, result);
    if pending == [] {
      BoundedHere(result, lines, n);
      assert [lines[n]] == lines[n..n + 1];
    } else {
      BoundedHere(result, lines, p);
      assert lines[p..n + 1] == lines[p..n] + [lines[n]];
      if Begins(pt, lines[n]) {
        assert ContinuesFrom(pt, lines, result, p, n);
      }
    }
    NextDirective(pt, lines, n, result);
  }

  /**
   Splits lines of words into statements. No word is lost, added or moved; every statement is one sentence at most; blank
   lines and list items are boundaries; directives are, unless they continue something incomplete; and no boundary is
   anywhere else.
   */
  method Split(pt: Patterns, lines: seq<Words>) returns (result: seq<Words>)
    ensures Concat(result) == Concat(lines)
    ensures EachSentence(result)
    ensures AllBounded(pt, lines, |lines|, result)
    ensures AllDirectives(pt, lines, |lines|, result)
    ensures AllJustified(pt, lines, result)
  {
    result := [];
    var pending: seq<Words> := [];
    ghost var p := 0;
    for n := 0 to |lines|
      invariant Splitting(pt, lines, n, result, pending, p) && AllBounded(pt, lines, n, result)
      invariant AllDirectives(pt, lines, n, result)
    {
      var line := lines[n];
      if line == [] {
        result := Flush(pt, lines, n, result, pending, p);
        pending := [];
        NextConcat(lines, n);
        NextBounded(pt, lines, n, result);
        NextDirective(pt, lines, n, result);
      } else {
        if pending != [] && (pt.item(line) || (Begins(pt, line) && !Incomplete(pt, pending))) {
          result := Flush(pt, lines, n, result, pending, p);
          pending := [];
        }
        NextPending(pt, lines, n, result, pending, p);
        p := if pending == [] then n else p;
        pending := pending + [line];
      }
    }
    result := Flush(pt, lines, |lines|, result, pending, p);
    assert lines[..|lines|] == lines;
  }

  /** No statement crosses a blank line: the statements split into those before it and those after it. */
  lemma BlankSeparates(pt: Patterns, lines: seq<Words>, result: seq<Words>, i: nat) returns (k: nat)
    requires AllBounded(pt, lines, |lines|, result) && Concat(result) == Concat(lines)
    requires i < |lines| && lines[i] == []
    ensures k <= |result| && Concat(result[..k]) == Concat(lines[..i]) && Concat(result[k..]) == Concat(lines[i + 1..])
  {
    assert MustBreak(pt, lines, i) && Bounded(result, lines, i);
    k :| BoundaryAt(result, lines, k, i);
    assert result == result[..k] + result[k..];
    ConcatAppend(result[..k], result[k..]);
    NextConcat(lines, i);
    assert lines == lines[..i + 1] + lines[i + 1..];
    ConcatAppend(lines[..i + 1], lines[i + 1..]);
    SameRest(Concat(lines[..i]), Concat(result[k..]), Concat(lines[i + 1..]));
  }

  lemma SameRest(head: Words, a: Words, b: Words)
    requires head + a == head + b
    ensures a == b
  {
    assert (head + a)[|head|..] == a && (head + b)[|head|..] == b;
  }

  /** A list item begins the statement that holds its first word. */
  lemma ItemStarts(pt: Patterns, lines: seq<Words>, result: seq<Words>, i: nat) returns (k: nat)
    requires AllBounded(pt, lines, |lines|, result) && Concat(result) == Concat(lines) && EachSentence(result)
    requires i < |lines| && lines[i] != [] && pt.item(lines[i])
    ensures k < |result| && Concat(result[..k]) == Concat(lines[..i]) && result[k] != [] && result[k][0] == lines[i][0]
  {
    assert MustBreak(pt, lines, i) && Bounded(result, lines, i);
    k :| BoundaryAt(result, lines, k, i);
    var words := Concat(lines);
    PrefixWords(lines, i);
    NextConcat(lines, i);
    PrefixWords(lines, i + 1);
    var at := |Concat(lines[..i])|;
    assert words[at] == lines[i][0];
    assert result[..|result|] == result;
    assert k < |result|;
    assert OneSentence(result[k]);
    NextConcat(result, k);
    PrefixWords(result, k + 1);
  }

  lemma PrefixWords(lines: seq<Words>, i: int)
    requires 0 <= i <= |lines|
    ensures Concat(lines[..i]) <= Concat(lines)
  {
    assert lines == lines[..i] + lines[i..];
    ConcatAppend(lines[..i], lines[i..]);
  }

  // ---------------------------------------------------------------- from text to statements

  /** The text that is split: masked lines blank, and then without headings. */
  ghost function Body(text: string): string
  {
    WithoutHeadings(Join(MaskedLines(Lines(WithoutComments(text))), '\n'), true)
  }

  /** The lines that contribute: neither fenced nor quoted, no heading, and not taken by one as its title. */
  ghost function Contributing(text: string): seq<string>
  {
    Unheaded(MaskedLines(Lines(WithoutComments(text))))
  }

  /**
   The statements of a text hold exactly the words of its contributing lines, in order. They are split as `Split`
   promises of the lines of the body.
   */
  method StatementsOf(pt: Patterns, text: string) returns (result: seq<Words>)
    ensures Concat(result) == Concat(LineWords(Contributing(text)))
    ensures EachSentence(result)
    ensures var lines := LineWords(Lines(Body(text)));
      Concat(result) == Concat(lines) && AllBounded(pt, lines, |lines|, result) &&
      AllDirectives(pt, lines, |lines|, result) && AllJustified(pt, lines, result)
  {
    var kept := Operative(text);
    var body := WithoutHeadings(Join(kept, '\n'), true);
    var lines := LineWords(Lines(body));
    result := Split(pt, lines);
    LineWordsConcat(Lines(body));
    TokensOfLines(body);
    HeadingsByLine(kept);
    LineWordsConcat(Unheaded(kept));
  }

  /** A line that is fenced or quoted contributes no word, and any other contributes its words unless a heading took them. */
  lemma ContributionOfLine(text: string, i: nat)
    requires i < |Lines(WithoutComments(text))|
    ensures var lines := Lines(WithoutComments(text));
      |Contributing(text)| == |lines| && Contributing(text)[i] in [lines[i], ""] &&
      (Masked(Marks(lines), i) ==> Tokens(Contributing(text)[i]) == [])
  {
    assert Tokens("") == [];
  }
}
