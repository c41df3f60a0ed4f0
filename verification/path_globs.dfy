/** Path globs of lane ownership: which globs are supported, which paths they own, and when two of them may meet. */
module PathGlobs {
  import opened Wrappers
  import opened Strings

  // ---------------------------------------------------------------- supported and safe globs

  predicate IsSegment(s: string)
  {
    s != "" && '/' !in s
  }

  /** Word characters: the ASCII ones are fixed, the others are whatever Unicode makes them. */
  predicate IsWord(c: char, unicode: char -> bool)
  {
    if c as int < 128 then 'a' <= c <= 'z' || 'A' <= c <= 'Z' || '0' <= c <= '9' || c == '_' else unicode(c)
  }

  predicate IsWildcard(segment: string)
  {
    segment == "*" || segment == "**"
  }

  predicate IsLiteral(segment: string, unicode: char -> bool)
  {
    segment != "" && '*' !in segment &&
    forall i | 0 <= i < |segment| :: IsWord(segment[i], unicode) || segment[i] in {' ', '.', '-'}
  }

  /** Every segment is a literal, `*` or `**`. */
  predicate Supported(path: string, unicode: char -> bool)
  {
    '\\' !in path && forall i {:trigger SupportedSegment(Split(path, '/')[i], unicode)} | 0 <= i < |Split(path, '/')| ::
      SupportedSegment(Split(path, '/')[i], unicode)
  }

  predicate SupportedSegment(segment: string, unicode: char -> bool)
  {
    IsWildcard(segment) || IsLiteral(segment, unicode)
  }

  /** The path stays within the repository root. */
  predicate Safe(path: string)
  {
    var normalized := Strip(path, Space);
    normalized != "" && normalized[0] != '/' && '\\' !in normalized && ':' !in normalized &&
    (forall i | 0 <= i < |normalized| :: normalized[i] as int >= 32) &&
    forall s | s in Split(normalized, '/') :: s !in ["", ".", ".."]
  }

  lemma {:induction false} SplitLeft(a: string, m: string)
    requires '/' !in a
    ensures Split(a + m, '/') == [a + Split(m, '/')[0]] + Split(m, '/')[1..]
  {
    if a == "" {
      assert a + m == m && a + Split(m, '/')[0] == Split(m, '/')[0];
    } else {
      SplitLeft(a[1..], m);
      assert (a + m)[1..] == a[1..] + m;
      assert a + Split(m, '/')[0] == [a[0]] + (a[1..] + Split(m, '/')[0]);
    }
  }

  /** Text appended to the last segment. */
  ghost function ToLast(parts: seq<string>, b: string): seq<string>
    requires parts != []
  {
    parts[..|parts| - 1] + [parts[|parts| - 1] + b]
  }

  lemma ConsToLast(c: char, parts: seq<string>, b: string)
    requires parts != []
    ensures Cons(c, ToLast(parts, b), '/') == ToLast(Cons(c, parts, '/'), b)
  {
    var n := |parts| - 1;
    var left, right := Cons(c, ToLast(parts, b), '/'), ToLast(Cons(c, parts, '/'), b);
    if c != '/' && n == 0 {
      assert [c] + (parts[0] + b) == [c] + parts[0] + b;
    }
    assert |left| == |right|;
    forall i | 0 <= i < |left|
      ensures left[i] == right[i]
    {
    }
  }

  lemma {:induction false} SplitRight(m: string, b: string)
    requires '/' !in b
    ensures Split(m + b, '/') == ToLast(Split(m, '/'), b)
  {
    if m == "" {
      SplitSegment(b, '/');
      assert m + b == b;
    } else {
      SplitRight(m[1..], b);
      assert (m + b)[1..] == m[1..] + b && (m + b)[0] == m[0];
      ConsToLast(m[0], Split(m[1..], '/'), b);
    }
  }

  /** The whitespace that the safety check ignores cannot hide an empty, `.` or `..` segment. */
  lemma SafeSegments(path: string)
    requires Safe(path)
    ensures forall i | 0 <= i < |Split(path, '/')| :: Split(path, '/')[i] !in ["", ".", ".."]
  {
    var left := StripLeft(path, Space);
    var m := StripRight(left, Space);
    var a := StripLeftShape(path, Space);
    var b := StripRightShape(left, Space);
    SplitPadded(a, m, b);
  }

  lemma SplitPadded(a: string, m: string, b: string)
    requires (forall i | 0 <= i < |a| :: IsSpace(a[i])) && forall i | 0 <= i < |b| :: IsSpace(b[i])
    requires forall s | s in Split(m, '/') :: s !in ["", ".", ".."]
    ensures forall i | 0 <= i < |Split(a + (m + b), '/')| :: Split(a + (m + b), '/')[i] !in ["", ".", ".."]
  {
    assert !IsSpace('/');
    assert forall i | 0 <= i < |a| :: a[i] != '/';
    assert forall i | 0 <= i < |b| :: b[i] != '/';
    SplitRight(m, b);
    SplitLeft(a, m + b);
    PaddedParts(Split(m, '/'), Split(m + b, '/'), Split(a + (m + b), '/'), a, b);
  }

  lemma PaddedParts(m: seq<string>, left: seq<string>, parts: seq<string>, a: string, b: string)
    requires (forall i | 0 <= i < |a| :: IsSpace(a[i])) && forall i | 0 <= i < |b| :: IsSpace(b[i])
    requires m != [] && forall s | s in m :: s !in ["", ".", ".."]
    requires left == ToLast(m, b) && parts == [a + left[0]] + left[1..]
    ensures forall i | 0 <= i < |parts| :: parts[i] !in ["", ".", ".."]
  {
    forall i | 0 <= i < |m|
      ensures parts[i] !in ["", ".", ".."]
    {
      assert m[i] in m;
      var before, after := if i == 0 then a else "", if i == |m| - 1 then b else "";
      assert parts[i] == before + m[i] + after;
      Padded(before, m[i], after);
    }
  }

  lemma Padded(a: string, s: string, b: string)
    requires s !in ["", ".", ".."]
    requires (forall i | 0 <= i < |a| :: IsSpace(a[i])) && forall i | 0 <= i < |b| :: IsSpace(b[i])
    ensures a + s + b !in ["", ".", ".."]
  {
    var t := a + s + b;
    if a != "" {
      assert t[0] == a[0];
    } else if b != "" {
      assert t[|t| - 1] == b[|b| - 1];
    } else {
      assert t == s;
    }
  }

  // ---------------------------------------------------------------- ownership

  /** Whether the segments of a path match those of a glob: `*` is one segment, `**` any number of them. */
  predicate Matches(path: seq<string>, glob: seq<string>)
    decreases |path| + |glob|
  {
    if glob == [] then path == []
    else if glob[0] == "**" then Matches(path, glob[1..]) || (path != [] && Matches(path[1..], glob))
    else path != [] && (glob[0] == "*" || glob[0] == path[0]) && Matches(path[1..], glob[1..])
  }

  /** A glob owns a path when it matches the path or one of its ancestors. */
  predicate Owns(glob: string, path: seq<string>)
  {
    exists k | 0 <= k <= |path| :: Matches(path[..k], Split(glob, '/'))
  }

  /** The literal segments before the first wildcard. */
  function Lead(glob: seq<string>): (lead: seq<string>)
    ensures lead <= glob && forall i | 0 <= i < |lead| :: !IsWildcard(lead[i])
    ensures |lead| < |glob| ==> IsWildcard(glob[|lead|])
  {
    if glob == [] || IsWildcard(glob[0]) then [] else [glob[0]] + Lead(glob[1..])
  }

  lemma {:induction false} LeadMatches(path: seq<string>, glob: seq<string>)
    requires Matches(path, glob)
    ensures Lead(glob) <= path
    decreases |path| + |glob|
  {
    if glob != [] && !IsWildcard(glob[0]) {
      LeadMatches(path[1..], glob[1..]);
      assert path == [path[0]] + path[1..];
    }
  }

  lemma LeadOwns(glob: string, path: seq<string>)
    requires Owns(glob, path)
    ensures Lead(Split(glob, '/')) <= path
  {
    var k :| 0 <= k <= |path| && Matches(path[..k], Split(glob, '/'));
    LeadMatches(path[..k], Split(glob, '/'));
  }

  // ---------------------------------------------------------------- the overlap test

  function PathPrefix(path: string): string
  {
    var normalized := Strip(Replace(path, '\\', '/'), Slash);
    var wildcard := Find(normalized, '*');
    if wildcard.None? then normalized else StripRight(normalized[..wildcard.value], Slash)
  }

  predicate PathsOverlap(left: string, right: string)
  {
    var l, r := PathPrefix(left), PathPrefix(right);
    if l == "" || r == "" then l == r || '*' in left || '*' in right
    else l == r || r + "/" <= l || l + "/" <= r
  }

  lemma {:induction false} JoinEnds(parts: seq<string>)
    requires parts != [] && forall i | 0 <= i < |parts| :: IsSegment(parts[i])
    ensures Join(parts, '/') != "" && Join(parts, '/')[0] != '/' && Join(parts, '/')[|Join(parts, '/')| - 1] != '/'
  {
    if |parts| > 1 {
      JoinEnds(parts[1..]);
    }
  }

  lemma {:induction false} JoinWithoutStar(parts: seq<string>)
    requires forall i | 0 <= i < |parts| :: '*' !in parts[i]
    ensures '*' !in Join(parts, '/')
  {
    if |parts| > 1 {
      JoinWithoutStar(parts[1..]);
    }
  }

  lemma NoBackslash(path: string)
    requires '\\' !in path
    ensures Replace(path, '\\', '/') == path
  {
  }

  /** What the proofs need of the segments of a supported glob. */
  ghost predicate Proper(parts: seq<string>)
  {
    parts != [] && forall i | 0 <= i < |parts| :: IsSegment(parts[i]) && (IsWildcard(parts[i]) || '*' !in parts[i])
  }

  lemma SupportedProper(path: string, unicode: char -> bool)
    requires Supported(path, unicode)
    ensures Proper(Split(path, '/')) && '\\' !in path && path == Join(Split(path, '/'), '/')
  {
    JoinSplit(path, '/');
    forall i | 0 <= i < |Split(path, '/')|
      ensures IsSegment(Split(path, '/')[i]) && (IsWildcard(Split(path, '/')[i]) || '*' !in Split(path, '/')[i])
    {
      assert SupportedSegment(Split(path, '/')[i], unicode);
    }
  }

  /** The textual prefix of a supported glob is its literal lead. */
  lemma PrefixIsLead(path: string, unicode: char -> bool)
    requires Supported(path, unicode)
    ensures PathPrefix(path) == Join(Lead(Split(path, '/')), '/')
    ensures '*' in path <==> |Lead(Split(path, '/'))| < |Split(path, '/')|
    ensures forall i | 0 <= i < |Lead(Split(path, '/'))| :: IsSegment(Lead(Split(path, '/'))[i])
  {
    SupportedProper(path, unicode);
    PrefixOfJoin(Split(path, '/'), Lead(Split(path, '/')), path);
  }

  lemma PrefixOfJoin(parts: seq<string>, lead: seq<string>, path: string)
    requires Proper(parts) && lead == Lead(parts) && path == Join(parts, '/') && '\\' !in path
    ensures PathPrefix(path) == Join(lead, '/')
    ensures '*' in path <==> |lead| < |parts|
  {
    JoinEnds(parts);
    NormalForm(path);
    LeadWithoutStar(parts);
    if |lead| < |parts| {
      PrefixBeforeStar(parts, lead, path);
    } else {
      assert lead == parts;
    }
  }

  lemma LeadWithoutStar(parts: seq<string>)
    requires Proper(parts)
    ensures '*' !in Join(Lead(parts), '/') && forall i | 0 <= i < |Lead(parts)| :: IsSegment(Lead(parts)[i])
  {
    JoinWithoutStar(Lead(parts));
  }

  lemma NormalForm(path: string)
    requires '\\' !in path && path != "" && path[0] != '/' && path[|path| - 1] != '/'
    ensures Strip(Replace(path, '\\', '/'), Slash) == path
  {
    NoBackslash(path);
    StripLeftNothing(path, Slash);
  }

  lemma PrefixBeforeStar(parts: seq<string>, lead: seq<string>, path: string)
    requires (forall i | 0 <= i < |lead| :: IsSegment(lead[i])) && '*' !in Join(lead, '/') && path == Join(parts, '/')
    requires lead <= parts && |lead| < |parts| && IsWildcard(parts[|lead|])
    ensures var r := Find(path, '*'); r.Some? && StripRight(path[..r.value], Slash) == Join(lead, '/')
    ensures '*' in path
  {
    StarAt(parts, lead);
    if lead != [] {
      JoinEnds(lead);
    }
    var text := Join(lead, '/') + if lead == [] then "" else "/";
    FirstStar(text, path);
    StripSlash(text, Join(lead, '/'));
  }

  lemma FirstStar(text: string, path: string)
    requires '*' !in text && text + "*" <= path
    ensures Find(path, '*') == Some(|text|) && path[..|text|] == text && '*' in path
  {
    assert path[..|text|] == text;
    assert path[|text|] == (text + "*")[|text|];
    FindAt(path, '*', |text|);
  }

  /** Where the first star of a glob stands. */
  lemma StarAt(parts: seq<string>, lead: seq<string>)
    requires lead <= parts && |lead| < |parts| && IsWildcard(parts[|lead|])
    ensures var text := Join(lead, '/') + if lead == [] then "" else "/";
      text + "*" <= Join(parts, '/')
  {
    var rest := parts[|lead|..];
    assert parts == lead + rest;
    if lead != [] {
      JoinConcat(lead, rest, '/');
    }
    assert rest[0][0] == '*';
    assert "*" <= Join(rest, '/');
  }

  lemma StripSlash(s: string, t: string)
    requires t == "" || t[|t| - 1] != '/'
    requires s == t || s == t + "/"
    ensures StripRight(s, Slash) == t
  {
    if s == t + "/" {
      assert s[..|s| - 1] == t;
    }
  }

  ghost predicate Comparable(a: seq<string>, b: seq<string>)
  {
    a <= b || b <= a
  }

  lemma JoinPrefix(a: seq<string>, b: seq<string>)
    requires a != [] && b != []
    requires (forall i | 0 <= i < |a| :: IsSegment(a[i])) && forall i | 0 <= i < |b| :: IsSegment(b[i])
    ensures Join(a, '/') == Join(b, '/') || Join(a, '/') + "/" <= Join(b, '/') <==> a <= b
  {
    SplitJoin(a, '/');
    SplitJoin(b, '/');
    if Join(a, '/') + "/" <= Join(b, '/') {
      var rest := Join(b, '/')[|Join(a, '/')| + 1..];
      assert Join(b, '/') == Join(a, '/') + "/" + rest;
      SplitConcat(Join(a, '/'), rest, '/');
    }
    if a <= b {
      assert b == a + b[|a|..];
      if |a| < |b| {
        JoinConcat(a, b[|a|..], '/');
      } else {
        assert a == b;
      }
    }
  }

  lemma ComparePrefixes(l: seq<string>, r: seq<string>)
    requires (forall i | 0 <= i < |l| :: IsSegment(l[i])) && forall i | 0 <= i < |r| :: IsSegment(r[i])
    ensures (Join(l, '/') == "") <==> l == []
    ensures (Join(r, '/') == "") <==> r == []
    ensures l != [] && r != [] ==>
      (Comparable(l, r) <==> Join(l, '/') == Join(r, '/') || Join(r, '/') + "/" <= Join(l, '/') || Join(l, '/') + "/" <= Join(r, '/'))
  {
    if l != [] {
      JoinEnds(l);
    }
    if r != [] {
      JoinEnds(r);
    }
    if l != [] && r != [] {
      JoinPrefix(l, r);
      JoinPrefix(r, l);
    }
  }

  /** What the overlap test computes: whether one literal lead extends the other. */
  lemma OverlapExactly(left: string, right: string, unicode: char -> bool)
    requires Supported(left, unicode) && Supported(right, unicode)
    ensures PathsOverlap(left, right) <==> Comparable(Lead(Split(left, '/')), Lead(Split(right, '/')))
  {
    var l, r := Lead(Split(left, '/')), Lead(Split(right, '/'));
    PrefixIsLead(left, unicode);
    PrefixIsLead(right, unicode);
    ComparePrefixes(l, r);
    if l == [] {
      assert |l| < |Split(left, '/')|;
    }
    if r == [] {
      assert |r| < |Split(right, '/')|;
    }
  }

  /** The test never misses a path that both globs own. */
  lemma OverlapNeverMisses(left: string, right: string, path: seq<string>, unicode: char -> bool)
    requires Supported(left, unicode) && Supported(right, unicode)
    requires Owns(left, path) && Owns(right, path)
    ensures PathsOverlap(left, right)
  {
    LeadOwns(left, path);
    LeadOwns(right, path);
    OverlapExactly(left, right, unicode);
  }

  // ---------------------------------------------------------------- when two globs share a path

  /**
   Whether two globs can own a common path: segment by segment they agree, up to the end of one of them or to
   a `**`, which can take in whatever the other one wants.
   */
  predicate Meet(l: seq<string>, r: seq<string>)
  {
    l == [] || r == [] || l[0] == "**" || r[0] == "**" ||
    ((l[0] == "*" || r[0] == "*" || l[0] == r[0]) && Meet(l[1..], r[1..]))
  }

  ghost predicate OwnsParts(glob: seq<string>, path: seq<string>)
  {
    exists k | 0 <= k <= |path| :: Matches(path[..k], glob)
  }

  /** One path that the glob matches. */
  function Instance(glob: seq<string>): seq<string>
  {
    if glob == [] then [] else [if IsWildcard(glob[0]) then "x" else glob[0]] + Instance(glob[1..])
  }

  lemma {:induction false} InstanceMatches(glob: seq<string>)
    ensures Matches(Instance(glob), glob)
  {
    if glob != [] {
      InstanceMatches(glob[1..]);
      assert Instance(glob)[1..] == Instance(glob[1..]);
      if glob[0] == "**" {
        assert Matches(Instance(glob)[1..], glob) by {
          assert Matches(Instance(glob[1..]), glob[1..]);
        }
      }
    }
  }

  /** A leading `**` takes in any segments. */
  lemma {:induction false} StarsTakeIn(a: seq<string>, b: seq<string>, glob: seq<string>)
    requires glob != [] && glob[0] == "**" && Matches(b, glob[1..])
    ensures Matches(a + b, glob)
  {
    if a == [] {
      assert a + b == b;
    } else {
      StarsTakeIn(a[1..], b, glob);
      assert (a + b)[1..] == a[1..] + b;
    }
  }

  lemma OwnsStars(l: seq<string>, r: seq<string>) returns (path: seq<string>)
    requires l != [] && l[0] == "**"
    ensures OwnsParts(l, path) && OwnsParts(r, path)
  {
    var a, b := Instance(r), Instance(l[1..]);
    path := a + b;
    InstanceMatches(r);
    InstanceMatches(l[1..]);
    StarsTakeIn(a, b, l);
    assert path[..|a|] == a && path[..|path|] == path;
  }

  lemma OwnsEnd(r: seq<string>) returns (path: seq<string>)
    ensures OwnsParts([], path) && OwnsParts(r, path)
  {
    path := Instance(r);
    InstanceMatches(r);
    assert path[..0] == [] && path[..|path|] == path;
  }

  lemma OwnsCons(glob: seq<string>, s: string, path: seq<string>)
    requires glob != [] && glob[0] != "**" && (glob[0] == "*" || glob[0] == s) && OwnsParts(glob[1..], path)
    ensures OwnsParts(glob, [s] + path)
  {
    var k :| 0 <= k <= |path| && Matches(path[..k], glob[1..]);
    assert ([s] + path)[..k + 1][1..] == path[..k];
  }

  lemma OwnsTail(glob: seq<string>, path: seq<string>)
    requires glob != [] && glob[0] != "**" && OwnsParts(glob, path)
    ensures path != [] && (glob[0] == "*" || glob[0] == path[0]) && OwnsParts(glob[1..], path[1..])
  {
    var k :| 0 <= k <= |path| && Matches(path[..k], glob);
    assert path[..k][1..] == path[1..][..k - 1];
  }

  lemma {:induction false} MeetingPath(l: seq<string>, r: seq<string>) returns (path: seq<string>)
    requires Meet(l, r)
    ensures OwnsParts(l, path) && OwnsParts(r, path)
  {
    if l == [] {
      path := OwnsEnd(r);
    } else if r == [] {
      path := OwnsEnd(l);
    } else if l[0] == "**" {
      path := OwnsStars(l, r);
    } else if r[0] == "**" {
      path := OwnsStars(r, l);
    } else {
      path := MeetingPath(l[1..], r[1..]);
      var s := if l[0] == "*" then r[0] else l[0];
      OwnsCons(l, s, path);
      OwnsCons(r, s, path);
      path := [s] + path;
    }
  }

  lemma {:induction false} CommonPathMeets(l: seq<string>, r: seq<string>, path: seq<string>)
    requires OwnsParts(l, path) && OwnsParts(r, path)
    ensures Meet(l, r)
    decreases |l|
  {
    if l != [] && r != [] && l[0] != "**" && r[0] != "**" {
      OwnsTail(l, path);
      OwnsTail(r, path);
      CommonPathMeets(l[1..], r[1..], path[1..]);
    }
  }

  /** Two globs share a path exactly when they meet. */
  lemma SharedExactly(left: string, right: string)
    ensures (exists path :: Owns(left, path) && Owns(right, path)) <==> Meet(Split(left, '/'), Split(right, '/'))
  {
    if Meet(Split(left, '/'), Split(right, '/')) {
      var path := MeetingPath(Split(left, '/'), Split(right, '/'));
      assert Owns(left, path) && Owns(right, path);
    }
    forall path | Owns(left, path) && Owns(right, path)
      ensures Meet(Split(left, '/'), Split(right, '/'))
    {
      CommonPathMeets(Split(left, '/'), Split(right, '/'), path);
    }
  }

  /** The test gives the right answer exactly for globs that meet whenever one literal lead extends the other. */
  lemma OverlapExactWhen(left: string, right: string, unicode: char -> bool)
    requires Supported(left, unicode) && Supported(right, unicode)
    ensures (PathsOverlap(left, right) <==> exists path :: Owns(left, path) && Owns(right, path)) <==>
      (Comparable(Lead(Split(left, '/')), Lead(Split(right, '/'))) ==> Meet(Split(left, '/'), Split(right, '/')))
  {
    OverlapExactly(left, right, unicode);
    SharedExactly(left, right);
    if Meet(Split(left, '/'), Split(right, '/')) {
      MeetComparable(Split(left, '/'), Split(right, '/'));
    }
  }

  lemma {:induction false} MeetComparable(l: seq<string>, r: seq<string>)
    requires Meet(l, r)
    ensures Comparable(Lead(l), Lead(r))
  {
    if Lead(l) != [] && Lead(r) != [] {
      MeetComparable(l[1..], r[1..]);
    }
  }

  /** Only the last segment may be a wildcard. */
  predicate TailWildcard(glob: string)
  {
    |Split(glob, '/')| - 1 <= |Lead(Split(glob, '/'))|
  }

  lemma {:induction false} TailsMeet(l: seq<string>, r: seq<string>)
    requires |l| - 1 <= |Lead(l)| && |r| - 1 <= |Lead(r)| && Comparable(Lead(l), Lead(r))
    ensures Meet(l, r)
  {
    if l != [] && r != [] {
      if Lead(l) != [] && Lead(r) != [] {
        assert Lead(l)[0] == Lead(r)[0];
        assert Lead(l)[1..] == Lead(l[1..]) && Lead(r)[1..] == Lead(r[1..]);
        TailsMeet(l[1..], r[1..]);
      } else if Lead(l) == [] {
        assert l[1..] == [];
      } else {
        assert r[1..] == [];
      }
    }
  }

  /** With wildcards only in last position the test is exact. */
  lemma OverlapExactForTails(left: string, right: string, unicode: char -> bool)
    requires Supported(left, unicode) && Supported(right, unicode) && TailWildcard(left) && TailWildcard(right)
    ensures PathsOverlap(left, right) <==> exists path :: Owns(left, path) && Owns(right, path)
  {
    OverlapExactWhen(left, right, unicode);
    if Comparable(Lead(Split(left, '/')), Lead(Split(right, '/'))) {
      TailsMeet(Split(left, '/'), Split(right, '/'));
    }
  }

  /** With an inner wildcard the test reports globs that share no path. */
  lemma InnerWildcardOverreports(s: string, t: string, path: seq<string>, unicode: char -> bool)
    requires '/' !in s && '\\' !in s && IsLiteral(s, unicode) && '/' !in t && '\\' !in t && IsLiteral(t, unicode) && s != t
    ensures Supported("*/" + s, unicode) && Supported("*/" + t, unicode) && PathsOverlap("*/" + s, "*/" + t)
    ensures !(Owns("*/" + s, path) && Owns("*/" + t, path))
  {
    InnerOverlap(s, t, unicode);
    InnerOwns(s, path);
    InnerOwns(t, path);
  }

  lemma InnerOverlap(s: string, t: string, unicode: char -> bool)
    requires '/' !in s && '\\' !in s && IsLiteral(s, unicode) && '/' !in t && '\\' !in t && IsLiteral(t, unicode)
    ensures Supported("*/" + s, unicode) && Supported("*/" + t, unicode) && PathsOverlap("*/" + s, "*/" + t)
  {
    InnerSupported(s, unicode);
    InnerSupported(t, unicode);
    OverlapExactly("*/" + s, "*/" + t, unicode);
  }

  lemma InnerSupported(s: string, unicode: char -> bool)
    requires '/' !in s && '\\' !in s && IsLiteral(s, unicode)
    ensures Supported("*/" + s, unicode) && Lead(Split("*/" + s, '/')) == []
  {
    InnerSplit(s);
  }

  lemma InnerSplit(s: string)
    requires '/' !in s
    ensures Split("*/" + s, '/') == ["*", s]
  {
    SplitSegment("*", '/');
    SplitSegment(s, '/');
    SplitConcat("*", s, '/');
    assert "*" + "/" + s == "*/" + s;
  }

  lemma InnerOwns(s: string, path: seq<string>)
    requires '/' !in s && !IsWildcard(s)
    ensures Owns("*/" + s, path) ==> |path| >= 2 && path[1] == s
  {
    InnerSplit(s);
    if k :| 0 <= k <= |path| && Matches(path[..k], ["*", s]) {
      assert Matches(path[..k][1..], ["*", s][1..]);
      assert ["*", s][1..] == [s];
      assert path[..k][1..] != [];
      assert path[..k][1..][0] == path[1];
    }
  }
}
