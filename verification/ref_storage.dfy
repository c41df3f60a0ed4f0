/**
 Branch storage of a local Git repository: loose ref files shadow packed-refs, and writers that
 respect the per-ref lock change the branch only while they hold it.
 */
module RefStorage {
  import opened Wrappers
  import opened Strings

  // ---------------------------------------------------------------- texts

  function ParseSha(s: string): (r: Option<string>)
    ensures r.Some? ==> IsSha(r.value)
  {
    var value := Lower(Strip(s, Space));
    if IsSha(value) then Some(value) else None
  }

  lemma ParseShaExact(s: string)
    requires IsSha(s)
    ensures ParseSha(s) == Some(s)
  {
    assert IsHex(s[0]) && IsHex(s[|s| - 1]);
    assert Strip(s, Space) == s;
    assert Lower(s) == s;
  }

  predicate IsAscii(s: string)
  {
    forall i | 0 <= i < |s| :: s[i] as int < 128
  }

  // ---------------------------------------------------------------- what a ref file says

  /** The head in a loose ref file; none when it is symbolic, not ASCII or not a full SHA. */
  function ParseLoose(bytes: string): (r: Option<string>)
    ensures r.Some? ==> IsSha(r.value)
  {
    var first := Until(bytes, c => c == '\n' || c == '\r');
    if StartsWith(first, "ref:") || !IsAscii(first) then None else ParseSha(first)
  }

  predicate Names(line: string, ref: string)
  {
    line != "" && line[0] != '#' && line[0] != '^' && EndsWith(line, " " + ref)
  }

  function Matches(lines: seq<string>, ref: string): seq<string>
  {
    if lines == [] then []
    else (if Names(lines[0], ref) then [Until(lines[0], c => c == ' ')] else []) + Matches(lines[1..], ref)
  }

  /** The head that packed-refs gives `ref`; none unless exactly one line names it. */
  function ParsePacked(bytes: string, ref: string): (r: Option<string>)
    ensures r.Some? ==> IsSha(r.value)
  {
    if !IsAscii(bytes) then None
    else
      var matches := Matches(Lines(bytes), ref);
      if |matches| == 1 then ParseSha(matches[0]) else None
  }

  // ---------------------------------------------------------------- what Git writes

  function LooseBytes(sha: string): string
  {
    sha + "\n"
  }

  /** One entry of packed-refs; an annotated tag carries the object that it peels to. */
  datatype Entry = Entry(sha: string, name: string, peeled: Option<string>)

  /** A ref name as Git admits it: ASCII here, without blanks, controls or line boundaries. */
  predicate IsRefName(s: string)
  {
    s != "" && forall i | 0 <= i < |s| :: 32 < s[i] as int < 127
  }

  predicate IsEntry(e: Entry)
  {
    IsSha(e.sha) && IsRefName(e.name) && (e.peeled.Some? ==> IsSha(e.peeled.value))
  }

  /** The contents of packed-refs: the comment that names its traits, and the entries. */
  datatype Listing = Listing(header: string, entries: seq<Entry>)

  predicate IsPrintable(s: string)
  {
    forall i | 0 <= i < |s| :: 32 <= s[i] as int < 127
  }

  predicate IsListing(l: Listing)
  {
    l.header != "" && l.header[0] == '#' && IsPrintable(l.header) &&
    forall i | 0 <= i < |l.entries| :: IsEntry(l.entries[i])
  }

  function EntryLine(e: Entry): string
  {
    e.sha + " " + e.name
  }

  function PeeledLine(e: Entry): seq<string>
  {
    if e.peeled.Some? then ["^" + e.peeled.value] else []
  }

  function EntryLines(entries: seq<Entry>): seq<string>
  {
    if entries == [] then []
    else
      [EntryLine(entries[0])] + PeeledLine(entries[0]) + EntryLines(entries[1..])
  }

  function Terminated(lines: seq<string>): string
  {
    if lines == [] then "" else lines[0] + "\n" + Terminated(lines[1..])
  }

  function PackedBytes(l: Listing): string
  {
    Terminated([l.header] + EntryLines(l.entries))
  }

  function Lookup(entries: seq<Entry>, ref: string): seq<string>
  {
    if entries == [] then []
    else (if entries[0].name == ref then [entries[0].sha] else []) + Lookup(entries[1..], ref)
  }

  /** What a listing says about a branch: the SHA of its only entry. */
  function PackedEntry(l: Listing, ref: string): Option<string>
  {
    if |Lookup(l.entries, ref)| == 1 then Some(Lookup(l.entries, ref)[0]) else None
  }

  lemma LooseRoundTrip(sha: string)
    requires IsSha(sha)
    ensures ParseLoose(LooseBytes(sha)) == Some(sha)
  {
    var stop := (c: char) => c == '\n' || c == '\r';
    UntilStops(sha, '\n', "", stop);
    assert LooseBytes(sha) == sha + ['\n'] + "";
    assert IsHex(sha[0]);
    ParseShaExact(sha);
  }

  lemma {:induction false} TerminatedLines(lines: seq<string>)
    requires forall i | 0 <= i < |lines| :: IsPrintable(lines[i])
    ensures IsAscii(Terminated(lines)) && Lines(Terminated(lines)) == lines
  {
    if lines != [] {
      var line, rest := lines[0], Terminated(lines[1..]);
      var s := line + ['\n'] + rest;
      TerminatedLines(lines[1..]);
      UntilStops(line, '\n', rest, IsBreak);
      assert s[|line|] == '\n' && s[|line| + 1..] == rest;
      assert Terminated(lines) == s;
    }
  }

  lemma {:induction false} EntryLinesPrintable(entries: seq<Entry>)
    requires forall i | 0 <= i < |entries| :: IsEntry(entries[i])
    ensures forall i | 0 <= i < |EntryLines(entries)| :: IsPrintable(EntryLines(entries)[i])
  {
    if entries != [] {
      EntryLinesPrintable(entries[1..]);
    }
  }

  lemma EntryLineNames(e: Entry, ref: string)
    requires IsEntry(e) && IsRefName(ref)
    ensures Names(EntryLine(e), ref) <==> e.name == ref
    ensures Until(EntryLine(e), c => c == ' ') == e.sha
  {
    var line, tail := EntryLine(e), " " + ref;
    UntilStops(e.sha, ' ', e.name, c => c == ' ');
    assert line == e.sha + [' '] + e.name;
    assert forall i | 0 <= i < |line| && i != 40 :: line[i] != ' ';
    assert IsHex(line[0]);
    if EndsWith(line, tail) {
      assert line[|line| - |tail|] == tail[0] == ' ';
      assert e.name == line[41..] == tail[1..] == ref;
    }
    if e.name == ref {
      assert line[40..] == tail;
    }
  }

  lemma PassedOver(line: string, lines: seq<string>, ref: string)
    requires !Names(line, ref)
    ensures Matches([line] + lines, ref) == Matches(lines, ref)
  {
    assert ([line] + lines)[1..] == lines;
  }

  lemma PickedUp(line: string, lines: seq<string>, ref: string)
    requires Names(line, ref)
    ensures Matches([line] + lines, ref) == [Until(line, c => c == ' ')] + Matches(lines, ref)
  {
    assert ([line] + lines)[1..] == lines;
  }

  /** Peeled objects and other branches are passed over. */
  lemma {:induction false} EntriesMatch(entries: seq<Entry>, ref: string)
    requires (forall i | 0 <= i < |entries| :: IsEntry(entries[i])) && IsRefName(ref)
    ensures Matches(EntryLines(entries), ref) == Lookup(entries, ref)
  {
    if entries != [] {
      EntriesMatch(entries[1..], ref);
      FirstEntryMatches(entries[0], EntryLines(entries[1..]), ref);
    }
  }

  lemma FirstEntryMatches(e: Entry, lines: seq<string>, ref: string)
    requires IsEntry(e) && IsRefName(ref)
    ensures Matches([EntryLine(e)] + PeeledLine(e) + lines, ref) ==
      (if e.name == ref then [e.sha] else []) + Matches(lines, ref)
  {
    var rest := PeeledLine(e) + lines;
    assert [EntryLine(e)] + PeeledLine(e) + lines == [EntryLine(e)] + rest;
    EntryLineNames(e, ref);
    if e.name == ref {
      PickedUp(EntryLine(e), rest, ref);
    } else {
      PassedOver(EntryLine(e), rest, ref);
    }
    if e.peeled.Some? {
      PassedOver("^" + e.peeled.value, lines, ref);
    } else {
      assert rest == lines;
    }
  }

  lemma PackedMatches(l: Listing, ref: string)
    requires IsListing(l) && IsRefName(ref)
    ensures IsAscii(PackedBytes(l)) && Matches(Lines(PackedBytes(l)), ref) == Lookup(l.entries, ref)
  {
    EntryLinesPrintable(l.entries);
    var lines := [l.header] + EntryLines(l.entries);
    TerminatedLines(lines);
    EntriesMatch(l.entries, ref);
    PassedOver(l.header, EntryLines(l.entries), ref);
  }

  /** Reading back a packed-refs file that Git wrote finds the branch exactly when it is listed once. */
  lemma PackedRoundTrip(l: Listing, ref: string)
    requires IsListing(l) && IsRefName(ref)
    ensures ParsePacked(PackedBytes(l), ref) == PackedEntry(l, ref)
  {
    PackedMatches(l, ref);
    LookupShas(l.entries, ref);
    if |Lookup(l.entries, ref)| == 1 {
      ParseShaExact(Lookup(l.entries, ref)[0]);
    }
  }

  lemma {:induction false} LookupShas(entries: seq<Entry>, ref: string)
    requires forall i | 0 <= i < |entries| :: IsEntry(entries[i])
    ensures forall i | 0 <= i < |Lookup(entries, ref)| :: IsSha(Lookup(entries, ref)[i])
  {
    if entries != [] {
      LookupShas(entries[1..], ref);
    }
  }
}
