/** Exact argument binding of one Remote Desktop connector call to the declarations of its routing packet. */
module CallGate {
  import opened Text
  import opened CanonicalJson

  datatype Refusal =
    | ActionRejected
    | ConfigurationRejected
    | ArgumentsInvalid
    | DeclarationMissing
    | DeclarationInvalid
    | DeclarationDuplicated
    | NoMatch

  datatype Verdict = Authorized | Refused(reason: Refusal)

  const TOOL := TextKey(FromString("tool"))
  const ARGUMENTS := TextKey(FromString("arguments"))

  /** The arguments without the top-level names that the policy calls nonsemantic. */
  function Normalized(arguments: Value, nonsemantic: set<Text>): (v: Value)
    requires arguments.Dict? && IsJsonValue(arguments)
    ensures v.Dict? && IsJsonValue(v)
  {
    Dict(map k | k in arguments.entries && !(k.TextKey? && k.text in nonsemantic) :: arguments.entries[k])
  }

  function CanonicalArguments(arguments: Value, nonsemantic: set<Text>): string
    requires arguments.Dict? && IsJsonValue(arguments)
  {
    Encode(Normalized(arguments, nonsemantic))
  }

  predicate WellFormed(declaration: Value, tools: seq<Value>)
  {
    declaration.Dict? && declaration.entries.Keys == {TOOL, ARGUMENTS} &&
    declaration.entries[TOOL].Str? && declaration.entries[TOOL] in tools &&
    declaration.entries[ARGUMENTS].Dict? && IsJsonValue(declaration.entries[ARGUMENTS])
  }

  /** What a declaration allows: one tool with one normalized argument value. */
  ghost function Binding(declaration: Value, tools: seq<Value>, nonsemantic: set<Text>): (b: (Text, Value))
    requires WellFormed(declaration, tools)
    ensures b.1.Dict? && IsJsonValue(b.1)
  {
    (declaration.entries[TOOL].text, Normalized(declaration.entries[ARGUMENTS], nonsemantic))
  }

  function BindingText(declaration: Value, tools: seq<Value>, nonsemantic: set<Text>): (Text, string)
    requires WellFormed(declaration, tools)
  {
    (declaration.entries[TOOL].text, CanonicalArguments(declaration.entries[ARGUMENTS], nonsemantic))
  }

  /** Everything the gate reads once the action and configuration checks have their errors. */
  datatype Call = Call(
    actionErrors: seq<string>,
    configurationErrors: seq<string>,
    nonsemantic: set<Text>,
    tool: Text,
    arguments: Value,
    requestedTools: Value,
    declarations: Value)
  {
    /** The arguments and both lists have the right form; the declarations are still unread. */
    ghost predicate Readable()
    {
      actionErrors == [] && configurationErrors == [] &&
      arguments.Dict? && IsJsonValue(arguments) &&
      requestedTools.List? && declarations.List? && declarations.items != []
    }

    ghost predicate WellFormedAt(i: nat)
    {
      requestedTools.List? && declarations.List? && i < |declarations.items| &&
      WellFormed(declarations.items[i], requestedTools.items)
    }

    ghost predicate Bindable()
    {
      Readable() && forall i: nat | i < |declarations.items| :: WellFormedAt(i)
    }

    ghost function BindingAt(i: nat): (b: (Text, Value))
      requires WellFormedAt(i)
      ensures b.1.Dict? && IsJsonValue(b.1)
    {
      Binding(declarations.items[i], requestedTools.items, nonsemantic)
    }

    ghost function TextAt(i: nat): (Text, string)
      requires WellFormedAt(i)
    {
      BindingText(declarations.items[i], requestedTools.items, nonsemantic)
    }

    /** The first `n` declarations are sound: well-formed and pairwise distinct. */
    ghost predicate SoundUpTo(n: nat)
    {
      Readable() && n <= |declarations.items| &&
      (forall i: nat | i < n :: WellFormedAt(i)) &&
      (forall i: nat, j: nat | i < j < n :: TextAt(i) != TextAt(j))
    }

    /** The texts of the first declarations, all of them well-formed. */
    ghost predicate Listed(texts: seq<(Text, string)>)
    {
      Readable() && |texts| <= |declarations.items| &&
      forall i {:trigger texts[i]} | 0 <= i < |texts| :: WellFormedAt(i) && texts[i] == TextAt(i)
    }

    ghost predicate MatchesAt(i: nat)
    {
      Readable() && WellFormedAt(i) && TextAt(i) == (tool, CanonicalArguments(arguments, nonsemantic))
    }

    /** The declarations are pairwise distinct and one of them allows exactly this call. */
    ghost predicate AllowedByValue()
    {
      Bindable() &&
      (forall i: nat, j: nat | i < j < |declarations.items| :: BindingAt(i) != BindingAt(j)) &&
      (exists i: nat :: i < |declarations.items| && BindingAt(i) == (tool, Normalized(arguments, nonsemantic)))
    }

    /** The tool is the same, and the arguments are up to the UTF-16 form of their strings. */
    ghost predicate SameCall(i: nat, b: (Text, Value))
      requires IsJsonValue(b.1)
    {
      WellFormedAt(i) && BindingAt(i).0 == b.0 && Alike(BindingAt(i).1, b.1)
    }

    /** No two declarations are the same call in that sense, and one of them is this call. */
    ghost predicate AllowedByForm()
    {
      Bindable() &&
      (forall i: nat, j: nat | i < j < |declarations.items| :: !SameCall(i, BindingAt(j))) &&
      (exists i: nat :: i < |declarations.items| && SameCall(i, (tool, Normalized(arguments, nonsemantic))))
    }

    /** The same, told by canonical texts. */
    ghost predicate AllowedByText()
    {
      Readable() && SoundUpTo(|declarations.items|) && exists i: nat :: MatchesAt(i)
    }

    /** Every string came through a JSON parser. */
    ghost predicate FromJson()
    {
      AllJoined(arguments) && AllJoined(declarations)
    }
  }

  lemma NormalizedJoined(arguments: Value, nonsemantic: set<Text>)
    requires arguments.Dict? && IsJsonValue(arguments) && AllJoined(arguments)
    ensures AllJoined(Normalized(arguments, nonsemantic))
  {
  }

  lemma DeclarationJoined(call: Call, i: nat)
    requires call.Bindable() && call.FromJson() && i < |call.declarations.items|
    ensures AllJoined(call.BindingAt(i).1)
  {
    assert call.WellFormedAt(i);
    var d := call.declarations.items[i];
    assert AllJoined(d);
    assert ARGUMENTS in d.entries;
    NormalizedJoined(d.entries[ARGUMENTS], call.nonsemantic);
  }

  lemma TextsTell(call: Call, i: nat, b: (Text, Value))
    requires call.WellFormedAt(i) && IsJsonValue(b.1)
    ensures call.TextAt(i) == (b.0, Encode(b.1)) <==> call.SameCall(i, b)
    ensures AllJoined(call.BindingAt(i).1) && AllJoined(b.1) ==> (call.SameCall(i, b) <==> call.BindingAt(i) == b)
  {
    EncodeExact(call.BindingAt(i).1, b.1);
  }

  /** Comparing canonical texts is comparing arguments up to UTF-16, and comparing values where every string is joined. */
  lemma AllowedExactly(call: Call)
    ensures call.AllowedByText() <==> call.AllowedByForm()
    ensures call.FromJson() ==> (call.AllowedByText() <==> call.AllowedByValue())
  {
    if call.Bindable() {
      var n, wanted := |call.declarations.items|, (call.tool, Normalized(call.arguments, call.nonsemantic));
      forall i: nat | i < n
        ensures call.MatchesAt(i) <==> call.SameCall(i, wanted)
      {
        TextsTell(call, i, wanted);
      }
      forall i: nat, j: nat | i < j < n
        ensures call.TextAt(i) == call.TextAt(j) <==> call.SameCall(i, call.BindingAt(j))
      {
        TextsTell(call, i, call.BindingAt(j));
      }
      if call.FromJson() {
        FormsAreValues(call);
      }
    }
  }

  lemma FormsAreValues(call: Call)
    requires call.Bindable() && call.FromJson()
    ensures call.AllowedByForm() <==> call.AllowedByValue()
  {
    var n, wanted := |call.declarations.items|, (call.tool, Normalized(call.arguments, call.nonsemantic));
    NormalizedJoined(call.arguments, call.nonsemantic);
    forall i: nat | i < n
      ensures call.SameCall(i, wanted) <==> call.BindingAt(i) == wanted
    {
      DeclarationJoined(call, i);
      TextsTell(call, i, wanted);
    }
    forall i: nat, j: nat | i < j < n
      ensures call.SameCall(i, call.BindingAt(j)) <==> call.BindingAt(i) == call.BindingAt(j)
    {
      DeclarationJoined(call, i);
      DeclarationJoined(call, j);
      TextsTell(call, i, call.BindingAt(j));
    }
  }

  /** An allowed call matches one declaration and no other. */
  lemma AllowedByOne(call: Call)
    requires call.AllowedByValue()
    ensures exists i: nat :: i < |call.declarations.items| &&
              call.BindingAt(i) == (call.tool, Normalized(call.arguments, call.nonsemantic)) &&
              (forall j: nat | j < |call.declarations.items| && j != i :: call.BindingAt(j) != call.BindingAt(i))
  {
    var i: nat :| i < |call.declarations.items| &&
             call.BindingAt(i) == (call.tool, Normalized(call.arguments, call.nonsemantic));
    forall j: nat | j < |call.declarations.items| && j != i
      ensures call.BindingAt(j) != call.BindingAt(i)
    {
      assert if i < j then call.BindingAt(i) != call.BindingAt(j) else call.BindingAt(j) != call.BindingAt(i);
    }
  }

  ghost predicate Distinct(texts: seq<(Text, string)>)
  {
    forall i, j | 0 <= i < j < |texts| :: texts[i] != texts[j]
  }

  lemma ListedSound(call: Call, texts: seq<(Text, string)>)
    requires call.Listed(texts) && Distinct(texts)
    ensures call.SoundUpTo(|texts|)
  {
    forall i: nat, j: nat | i < j < |texts|
      ensures call.WellFormedAt(i) && call.WellFormedAt(j) && call.TextAt(i) != call.TextAt(j)
    {
      assert texts[i] != texts[j];
    }
    forall i: nat | i < |texts|
      ensures call.WellFormedAt(i)
    {
      var text := texts[i];
    }
  }

  lemma ListedMatches(call: Call, texts: seq<(Text, string)>)
    requires call.Listed(texts) && |texts| == |call.declarations.items|
    ensures (exists i: nat :: call.MatchesAt(i)) <==>
      (call.tool, CanonicalArguments(call.arguments, call.nonsemantic)) in texts
  {
    var wanted := (call.tool, CanonicalArguments(call.arguments, call.nonsemantic));
    if i: nat :| call.MatchesAt(i) {
      assert texts[i] == wanted;
    }
    if wanted in texts {
      var i: nat :| i < |texts| && texts[i] == wanted;
      assert call.MatchesAt(i);
    }
  }

  lemma DuplicateAt(call: Call, texts: seq<(Text, string)>, key: (Text, string)) returns (i: nat)
    requires call.Listed(texts) && key in texts
    ensures i < |texts| && call.WellFormedAt(i) && call.TextAt(i) == key
  {
    i :| i < |texts| && texts[i] == key;
  }

  lemma ListedNext(call: Call, texts: seq<(Text, string)>)
    requires call.Listed(texts) && |texts| < |call.declarations.items| && call.WellFormedAt(|texts|)
    ensures call.Listed(texts + [call.TextAt(|texts|)])
  {
    var more := texts + [call.TextAt(|texts|)];
    forall i | 0 <= i < |more|
      ensures call.WellFormedAt(i) && more[i] == call.TextAt(i)
    {
      if i < |texts| {
        var text := texts[i];
        assert more[i] == text;
      }
    }
  }

  method Validate(call: Call) returns (verdict: Verdict)
    ensures verdict == Authorized <==> call.AllowedByText()
    ensures verdict == Authorized <==> call.AllowedByForm()
    ensures call.FromJson() ==> (verdict == Authorized <==> call.AllowedByValue())
    ensures verdict == Refused(DeclarationInvalid) ==>
      exists n: nat :: call.SoundUpTo(n) && n < |call.declarations.items| && !call.WellFormedAt(n)
    ensures verdict == Refused(DeclarationDuplicated) ==>
      exists i: nat, n: nat :: i < n && call.SoundUpTo(n) && call.WellFormedAt(n) && call.TextAt(i) == call.TextAt(n)
    ensures verdict == Refused(NoMatch) ==>
      call.Readable() && call.SoundUpTo(|call.declarations.items|) && forall i: nat :: !call.MatchesAt(i)
  {
    AllowedExactly(call);
    if call.actionErrors != [] {
      return Refused(ActionRejected);
    }
    if call.configurationErrors != [] {
      return Refused(ConfigurationRejected);
    }
    if !call.arguments.Dict? || !IsJsonValue(call.arguments) {
      return Refused(ArgumentsInvalid);
    }
    if !call.requestedTools.List? || !call.declarations.List? || call.declarations.items == [] {
      return Refused(DeclarationMissing);
    }
    verdict := Compare(call);
  }

  /** Reads the declarations one by one and compares the call with each. */
  method Compare(call: Call) returns (verdict: Verdict)
    requires call.Readable()
    ensures verdict == Authorized <==> call.AllowedByText()
    ensures verdict in {Authorized, Refused(DeclarationInvalid), Refused(DeclarationDuplicated), Refused(NoMatch)}
    ensures verdict == Refused(DeclarationInvalid) ==>
      exists n: nat :: call.SoundUpTo(n) && n < |call.declarations.items| && !call.WellFormedAt(n)
    ensures verdict == Refused(DeclarationDuplicated) ==>
      exists i: nat, n: nat :: i < n && call.SoundUpTo(n) && call.WellFormedAt(n) && call.TextAt(i) == call.TextAt(n)
    ensures verdict == Refused(NoMatch) ==>
      call.SoundUpTo(|call.declarations.items|) && forall i: nat :: !call.MatchesAt(i)
  {
    var actual := CanonicalArguments(call.arguments, call.nonsemantic);
    var seen: set<(Text, string)> := {};
    var matched := false;
    ghost var texts := [];
    for n := 0 to |call.declarations.items|
      invariant |texts| == n && call.Listed(texts) && Distinct(texts)
      invariant forall key :: key in seen <==> key in texts
      invariant matched <==> (call.tool, actual) in texts
    {
      var declaration := call.declarations.items[n];
      ListedSound(call, texts);
      if !WellFormed(declaration, call.requestedTools.items) {
        assert !call.WellFormedAt(n);
        return Refused(DeclarationInvalid);
      }
      var key := BindingText(declaration, call.requestedTools.items, call.nonsemantic);
      assert call.WellFormedAt(n) && key == call.TextAt(n);
      if key in seen {
        ghost var i := DuplicateAt(call, texts, key);
        return Refused(DeclarationDuplicated);
      }
      ListedNext(call, texts);
      texts := texts + [key];
      seen := seen + {key};
      if key.0 == call.tool && key.1 == actual {
        matched := true;
      }
    }
    ListedSound(call, texts);
    ListedMatches(call, texts);
    return if matched then Authorized else Refused(NoMatch);
  }
}
