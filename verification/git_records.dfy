/** Git's NUL-terminated records, as publication reads them: filter attributes and index entries. */
module GitRecords {
  import opened Wrappers
  import opened Strings

  const NUL := '\0'

  /** Every text followed by a NUL. */
  function Terminated(texts: seq<string>): string
  {
    if texts == [] then "" else texts[0] + [NUL] + Terminated(texts[1..])
  }

  ghost predicate NoNul(texts: seq<string>)
  {
    forall i | 0 <= i < |texts| :: NUL !in texts[i]
  }

  lemma {:induction false} SplitTerminated(texts: seq<string>)
    requires NoNul(texts)
    ensures Split(Terminated(texts), NUL) == texts + [""]
  {
    if texts == [] {
    } else {
      SplitTerminated(texts[1..]);
      SplitSegment(texts[0], NUL);
      SplitConcat(texts[0], Terminated(texts[1..]), NUL);
      assert [texts[0]] + (texts[1..] + [""]) == texts + [""];
    }
  }

  // ---------------------------------------------------------------- filter attributes

  datatype Attribute = Attribute(path: string, name: string, value: string)

  function Flat(attributes: seq<Attribute>): seq<string>
  {
    if attributes == [] then []
    else [attributes[0].path, attributes[0].name, attributes[0].value] + Flat(attributes[1..])
  }

  /** The texts of an output; what follows the last NUL does not count when it is empty. */
  function Texts(output: string): seq<string>
  {
    var texts := Split(output, NUL);
    if texts[|texts| - 1] == "" then texts[..|texts| - 1] else texts
  }

  /** The `i`-th triple is a filter attribute with the value `d`. */
  predicate FilterAt(texts: seq<string>, i: int, d: string)
  {
    0 <= i && 3 * i + 2 < |texts| && texts[3 * i + 1] == "filter" && texts[3 * i + 2] == d && d != ""
  }

  /** The filter drivers that are active; none when the output does not consist of triples. */
  method ActiveFilters(output: string) returns (drivers: Option<set<string>>)
    ensures drivers.Some? <==> |Texts(output)| % 3 == 0
    ensures drivers.Some? ==>
      forall d :: d in drivers.value <==> exists i :: FilterAt(Texts(output), i, d)
  {
    var texts := Texts(output);
    if |texts| % 3 != 0 {
      return None;
    }
    var found := {};
    for i := 0 to |texts| / 3
      invariant forall d :: d in found <==> exists k :: k < i && FilterAt(texts, k, d)
    {
      var value := texts[3 * i + 2];
      if FilterAt(texts, i, value) {
        found := found + {value};
      }
    }
    drivers := Some(found);
  }

  lemma {:induction false} FlatAt(attributes: seq<Attribute>, i: nat)
    ensures |Flat(attributes)| == 3 * |attributes|
    ensures i < |attributes| ==>
      Flat(attributes)[3 * i] == attributes[i].path && Flat(attributes)[3 * i + 1] == attributes[i].name &&
      Flat(attributes)[3 * i + 2] == attributes[i].value
  {
    if attributes != [] {
      var first, rest := attributes[0], Flat(attributes[1..]);
      FlatAt(attributes[1..], if i == 0 then 0 else i - 1);
      assert Flat(attributes) == [first.path, first.name, first.value] + rest;
      if 0 < i < |attributes| {
        assert Flat(attributes)[3 * i] == rest[3 * (i - 1)] && Flat(attributes)[3 * i + 1] == rest[3 * (i - 1) + 1];
        assert Flat(attributes)[3 * i + 2] == rest[3 * (i - 1) + 2];
      }
    }
  }

  lemma TextsTerminated(texts: seq<string>)
    requires NoNul(texts)
    ensures Texts(Terminated(texts)) == texts
  {
    SplitTerminated(texts);
    assert (texts + [""])[..|texts|] == texts;
  }

  predicate ActivatesAt(attributes: seq<Attribute>, i: int, d: string)
  {
    0 <= i < |attributes| && attributes[i].name == "filter" && attributes[i].value == d && d != ""
  }

  lemma FilterExactly(attributes: seq<Attribute>, d: string, i: int)
    ensures FilterAt(Flat(attributes), i, d) <==> ActivatesAt(attributes, i, d)
  {
    if 0 <= i < |attributes| {
      FlatAt(attributes, i);
    } else {
      FlatAt(attributes, 0);
    }
  }

  lemma Triples(n: nat)
    ensures 3 * n % 3 == 0
  {
  }

  lemma AllFiltersExactly(attributes: seq<Attribute>, texts: seq<string>)
    requires texts == Flat(attributes)
    ensures forall i, d :: FilterAt(texts, i, d) <==> ActivatesAt(attributes, i, d)
  {
    forall i, d
      ensures FilterAt(texts, i, d) <==> ActivatesAt(attributes, i, d)
    {
      FilterExactly(attributes, d, i);
    }
  }

  /** What Git prints about attributes is read back exactly, whatever else the paths and values contain. */
  lemma FiltersExactly(attributes: seq<Attribute>)
    requires NoNul(Flat(attributes))
    ensures Texts(Terminated(Flat(attributes))) == Flat(attributes) && |Flat(attributes)| % 3 == 0
    ensures forall i, d :: FilterAt(Texts(Terminated(Flat(attributes))), i, d) <==> ActivatesAt(attributes, i, d)
  {
    var flat := Flat(attributes);
    TextsTerminated(flat);
    FlatAt(attributes, 0);
    AllFiltersExactly(attributes, Texts(Terminated(flat)));
    Triples(|attributes|);
  }

  // ---------------------------------------------------------------- index entries

  /** An index entry: the mode, the rest of the metadata, and the path. */
  datatype Entry = Entry(mode: string, metadata: string, path: string)

  predicate IsEntry(e: Entry)
  {
    ' ' !in e.mode && '\t' !in e.mode && NUL !in e.mode && '\t' !in e.metadata && NUL !in e.metadata && NUL !in e.path
  }

  function Line(e: Entry): string
  {
    e.mode + " " + e.metadata + "\t" + e.path
  }

  function Lines(entries: seq<Entry>): seq<string>
  {
    if entries == [] then [] else [Line(entries[0])] + Lines(entries[1..])
  }

  function BeforeFirst(s: string, c: char): string
  {
    var i := Find(s, c);
    if i.Some? then s[..i.value] else s
  }

  /** The mode and the path of a record: the first tab separates them, whatever the path contains. */
  function ReadRecord(record: string): Option<(string, string)>
  {
    var tab := Find(record, '\t');
    if tab.None? then None else Some((BeforeFirst(record[..tab.value], ' '), record[tab.value + 1..]))
  }

  const GITLINK := "160000"

  /** The paths of the gitlinks among the records, in order; a record without a tab is an error. */
  function GitlinksOf(records: seq<string>): Option<seq<string>>
  {
    if records == [] then Some([]) else
      var n := |records| - 1;
      var before := GitlinksOf(records[..n]);
      if before.None? || records[n] == "" then before
      else
        var read := ReadRecord(records[n]);
        if read.None? then None
        else if read.value.0 == GITLINK then Some(before.value + [read.value.1])
        else before
  }

  /** A record without a tab, other than the empty one behind the last terminator. */
  predicate Untabbed(record: string)
  {
    record != "" && '\t' !in record
  }

  ghost predicate SomeUntabbed(records: seq<string>)
  {
    exists i | 0 <= i < |records| :: Untabbed(records[i])
  }

  /** Reading fails exactly on a record without a tab. */
  lemma {:induction false} GitlinksFail(records: seq<string>)
    ensures GitlinksOf(records) == None <==> SomeUntabbed(records)
  {
    if records != [] {
      var n := |records| - 1;
      GitlinksFail(records[..n]);
      assert forall i | 0 <= i < n :: records[..n][i] == records[i];
      assert ReadRecord(records[n]) == None <==> '\t' !in records[n];
    }
  }

  method GitlinkPaths(output: string) returns (paths: Option<seq<string>>)
    ensures paths == GitlinksOf(Split(output, NUL))
    ensures paths == None <==> SomeUntabbed(Split(output, NUL))
  {
    var records := Split(output, NUL);
    var found := [];
    for i := 0 to |records|
      invariant GitlinksOf(records[..i]) == Some(found)
    {
      assert records[..i + 1][..i] == records[..i];
      if records[i] != "" {
        var read := ReadRecord(records[i]);
        if read.None? {
          StaysInvalid(records, i + 1);
          GitlinksFail(records);
          return None;
        }
        if read.value.0 == GITLINK {
          found := found + [read.value.1];
        }
      }
    }
    assert records[..|records|] == records;
    GitlinksFail(records);
    paths := Some(found);
  }

  lemma {:induction false} StaysInvalid(records: seq<string>, i: nat)
    requires i <= |records| && GitlinksOf(records[..i]) == None
    ensures GitlinksOf(records) == None
    decreases |records| - i
  {
    if i < |records| {
      assert records[..i + 1][..i] == records[..i];
      StaysInvalid(records, i + 1);
    } else {
      assert records[..i] == records;
    }
  }

  lemma ReadLine(e: Entry)
    requires IsEntry(e)
    ensures ReadRecord(Line(e)) == Some((e.mode, e.path)) && Line(e) != "" && NUL !in Line(e)
  {
    var front := e.mode + " " + e.metadata;
    assert Line(e) == front + "\t" + e.path;
    assert Line(e)[..|front|] == front && Line(e)[|front| + 1..] == e.path;
    FindAt(Line(e), '\t', |front|);
    assert front[..|e.mode|] == e.mode;
    FindAt(front, ' ', |e.mode|);
  }

  ghost function Gitlinks(entries: seq<Entry>): seq<string>
  {
    if entries == [] then [] else
      var n := |entries| - 1;
      Gitlinks(entries[..n]) + if entries[n].mode == GITLINK then [entries[n].path] else []
  }

  lemma {:induction false} LinesAppend(entries: seq<Entry>, e: Entry)
    ensures Lines(entries + [e]) == Lines(entries) + [Line(e)]
  {
    if entries == [] {
      assert [e][1..] == [];
    } else {
      LinesAppend(entries[1..], e);
      assert (entries + [e])[1..] == entries[1..] + [e];
    }
  }

  lemma {:induction false} LinesRead(entries: seq<Entry>)
    requires forall i | 0 <= i < |entries| :: IsEntry(entries[i])
    ensures GitlinksOf(Lines(entries)) == Some(Gitlinks(entries)) && NoNul(Lines(entries))
  {
    if entries != [] {
      var n := |entries| - 1;
      LinesRead(entries[..n]);
      LinesAppend(entries[..n], entries[n]);
      assert entries == entries[..n] + [entries[n]];
      LineRead(Lines(entries[..n]), entries[n]);
    }
  }

  lemma LineRead(records: seq<string>, e: Entry)
    requires IsEntry(e) && GitlinksOf(records).Some? && NoNul(records)
    ensures NoNul(records + [Line(e)])
    ensures GitlinksOf(records + [Line(e)]) ==
      Some(GitlinksOf(records).value + if e.mode == GITLINK then [e.path] else [])
  {
    ReadLine(e);
    assert (records + [Line(e)])[..|records|] == records;
    assert GitlinksOf(records).value + [] == GitlinksOf(records).value;
  }

  /** The index as Git prints it gives exactly its gitlinks, in order, even for paths with tabs, spaces and line breaks. */
  lemma GitlinksExactly(entries: seq<Entry>)
    requires forall i | 0 <= i < |entries| :: IsEntry(entries[i])
    ensures GitlinksOf(Split(Terminated(Lines(entries)), NUL)) == Some(Gitlinks(entries))
  {
    LinesRead(entries);
    SplitTerminated(Lines(entries));
    assert (Lines(entries) + [""])[..|Lines(entries)|] == Lines(entries);
  }
}
