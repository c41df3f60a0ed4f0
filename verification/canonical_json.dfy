/**
 The canonical JSON text used for exact binding: `json.dumps` with sorted keys, no blanks,
 ASCII-only output and no NaN (RFC 8259; string escapes are those of its section 7).
 */
module CanonicalJson {
  import opened Text
  import opened Decimals

  /** A Python float: a finite one is known by its `repr`, which no two finite floats share. */
  datatype Float = Finite(repr: string) | NonFinite

  /** A dictionary key: text, or any other hashable object. */
  datatype Key = TextKey(text: Text) | OtherKey(id: nat)

  /** A Python object as it reaches the encoder; `Opaque` is anything outside the JSON types. */
  datatype Value =
    | Null
    | Bool(flag: bool)
    | Int(number: int)
    | Real(float: Float)
    | Str(text: Text)
    | List(items: seq<Value>)
    | Dict(entries: map<Key, Value>)
    | Opaque(id: nat)

  /** The shape of a finite float's `repr`: never that of an integer. */
  predicate IsFloatText(s: string)
  {
    (forall i | 0 <= i < |s| :: IsNumberChar(s[i])) && (exists i | 0 <= i < |s| :: s[i] == '.' || s[i] == 'e')
  }

  predicate IsNumberChar(c: char)
  {
    IsDigit(c) || c == '-' || c == '+' || c == '.' || c == 'e'
  }

  predicate IsJsonValue(v: Value)
  {
    match v
    case Null => true
    case Bool(_) => true
    case Int(_) => true
    case Real(f) => f.Finite? && IsFloatText(f.repr)
    case Str(_) => true
    case List(items) => forall i | 0 <= i < |items| :: IsJsonValue(items[i])
    case Dict(entries) => forall k | k in entries :: k.TextKey? && IsJsonValue(entries[k])
    case Opaque(_) => false
  }

  // ---------------------------------------------------------------- strings

  type Unit = u: int | 0 <= u < 0x10000

  predicate IsHigh(c: int) { 0xD800 <= c < 0xDC00 }

  predicate IsLow(c: int) { 0xDC00 <= c < 0xE000 }

  /** The UTF-16 code units that `ensure_ascii` writes for one code point. */
  function UnitsOf(c: CodePoint): (us: seq<Unit>)
    ensures |us| == if c < 0x10000 then 1 else 2
  {
    if c < 0x10000 then [c] else [0xD800 + (c - 0x10000) / 0x400, 0xDC00 + (c - 0x10000) % 0x400]
  }

  function Utf16(t: Text): seq<Unit>
  {
    if t == [] then [] else UnitsOf(t[0]) + Utf16(t[1..])
  }

  /** No low surrogate directly follows a high one, as in every string that `json.loads` returns. */
  predicate Joined(t: Text)
  {
    forall i | 0 < i < |t| :: !(IsHigh(t[i - 1]) && IsLow(t[i]))
  }

  function HexDigit(d: int): char
    requires 0 <= d < 16
  {
    if d < 10 then ('0' as int + d) as char else ('a' as int + d - 10) as char
  }

  function Hex(u: Unit): (s: string)
    ensures |s| == 4
  {
    [HexDigit(u / 16 / 16 / 16), HexDigit(u / 16 / 16 % 16), HexDigit(u / 16 % 16), HexDigit(u % 16)]
  }

  function Escape(u: Unit): (s: string)
    ensures s != "" && s[0] != '"'
  {
    if u == 34 then "\\\""
    else if u == 92 then "\\\\"
    else if u == 10 then "\\n"
    else if u == 13 then "\\r"
    else if u == 9 then "\\t"
    else if u == 12 then "\\f"
    else if u == 8 then "\\b"
    else if 32 <= u <= 126 then [u as char]
    else "\\u" + Hex(u)
  }

  function Escapes(us: seq<Unit>): string
  {
    if us == [] then "" else Escape(us[0]) + Escapes(us[1..])
  }

  function Quote(t: Text): (s: string)
    ensures s != "" && s[0] == '"'
  {
    "\"" + Escapes(Utf16(t)) + "\""
  }

  lemma HexInjective(u: Unit, v: Unit)
    requires Hex(u) == Hex(v)
    ensures u == v
  {
    HexDigitInjective(u / 16 / 16 / 16, v / 16 / 16 / 16, Hex(u)[0]);
    HexDigitInjective(u / 16 / 16 % 16, v / 16 / 16 % 16, Hex(u)[1]);
    HexDigitInjective(u / 16 % 16, v / 16 % 16, Hex(u)[2]);
    HexDigitInjective(u % 16, v % 16, Hex(u)[3]);
  }

  lemma HexDigitInjective(a: int, b: int, d: char)
    requires 0 <= a < 16 && 0 <= b < 16 && HexDigit(a) == d == HexDigit(b)
    ensures a == b
  {
  }

  /** One escape is told from the next wherever it stands. */
  lemma EscapePrefixFree(u: Unit, v: Unit, x: string, y: string)
    requires Escape(u) + x == Escape(v) + y
    ensures u == v && x == y
  {
    var s, a, b := Escape(u) + x, Escape(u), Escape(v);
    assert s[0] == a[0] == b[0];
    if s[0] == '\\' {
      assert s[1] == a[1] == b[1];
      if s[1] == 'u' {
        assert |a| == 6 && |b| == 6;
        assert a[2..] == s[2..6] == b[2..];
        assert a[2..] == Hex(u) && b[2..] == Hex(v);
        HexInjective(u, v);
      }
    }
    assert a == b;
    assert x == s[|a|..] == y;
  }

  ghost predicate Quoted(x: string)
  {
    x != "" && x[0] == '"'
  }

  lemma {:induction false} EscapesUnique(us: seq<Unit>, vs: seq<Unit>, x: string, y: string)
    requires Quoted(x) && Quoted(y) && Escapes(us) + x == Escapes(vs) + y
    ensures us == vs && x == y
  {
    if us == [] && vs == [] {
      assert x == Escapes(us) + x && y == Escapes(vs) + y;
    } else if us == [] {
      assert Escapes(us) + x == x;
      EscapesHead(vs, y);
    } else if vs == [] {
      assert Escapes(vs) + y == y;
      EscapesHead(us, x);
    } else {
      EscapesHead(us, x);
      EscapesHead(vs, y);
      EscapePrefixFree(us[0], vs[0], Escapes(us[1..]) + x, Escapes(vs[1..]) + y);
      EscapesUnique(us[1..], vs[1..], x, y);
      assert us == [us[0]] + us[1..] && vs == [vs[0]] + vs[1..];
    }
  }

  lemma EscapesHead(us: seq<Unit>, x: string)
    requires us != []
    ensures Escapes(us) + x == Escape(us[0]) + (Escapes(us[1..]) + x)
    ensures (Escapes(us) + x)[0] != '"'
  {
    assert Escapes(us) + x == Escape(us[0]) + (Escapes(us[1..]) + x);
  }

  lemma {:induction false} Utf16Injective(s: Text, t: Text)
    requires Joined(s) && Joined(t) && Utf16(s) == Utf16(t)
    ensures s == t
  {
    if s == [] || t == [] {
      assert |Utf16(s)| == 0;
    } else {
      FirstCodePoint(s, t);
      assert s[0] == t[0];
      var n := |UnitsOf(s[0])|;
      assert Utf16(s[1..]) == Utf16(s)[n..] == Utf16(t)[n..] == Utf16(t[1..]);
      Utf16Injective(s[1..], t[1..]);
      assert s == [s[0]] + s[1..] && t == [t[0]] + t[1..];
    }
  }

  lemma FirstCodePoint(s: Text, t: Text)
    requires s != [] && t != [] && Joined(s) && Joined(t) && Utf16(s) == Utf16(t)
    ensures s[0] == t[0]
  {
    var us := Utf16(s);
    assert us[0] == UnitsOf(s[0])[0] == UnitsOf(t[0])[0];
    if s[0] >= 0x10000 && t[0] >= 0x10000 {
      assert us[1] == UnitsOf(s[0])[1] == UnitsOf(t[0])[1];
    } else if s[0] >= 0x10000 {
      SplitPair(t, s);
    } else if t[0] >= 0x10000 {
      SplitPair(s, t);
    }
  }

  /** A code point beyond the basic plane shares its units only with two separate surrogates. */
  lemma SplitPair(s: Text, t: Text)
    requires s != [] && t != [] && Utf16(s) == Utf16(t)
    requires s[0] < 0x10000 <= t[0]
    ensures !Joined(s)
  {
    var us := Utf16(s);
    assert us[0] == s[0] == UnitsOf(t[0])[0];
    assert us[1] == UnitsOf(t[0])[1];
    assert us[1..] == Utf16(s[1..]);
    assert us[1] == UnitsOf(s[1])[0];
    assert IsHigh(s[0]) && IsLow(s[1]);
  }

  lemma QuoteTail(t: Text)
    ensures Quote(t)[1..] == Escapes(Utf16(t)) + "\""
  {
  }

  /** Equal quoted texts mean equal UTF-16 forms: that is all the escapes keep of a string. */
  lemma QuoteExact(s: Text, t: Text)
    ensures Quote(s) == Quote(t) <==> Utf16(s) == Utf16(t)
    ensures Joined(s) && Joined(t) ==> (Quote(s) == Quote(t) <==> s == t)
  {
    if Quote(s) == Quote(t) {
      QuoteTail(s);
      QuoteTail(t);
      EscapesUnique(Utf16(s), Utf16(t), "\"", "\"");
      if Joined(s) && Joined(t) {
        Utf16Injective(s, t);
      }
    }
  }

  /** Without `Joined` the binding is not exact: a surrogate pair kept apart collides with its code point. */
  lemma SurrogatePairCollides()
    ensures Quote([0xD83D, 0xDE00]) == Quote([0x1F600])
    ensures [0xD83D, 0xDE00] != [0x1F600]
  {
    var pair: Text, single: Text := [0xD83D, 0xDE00], [0x1F600];
    assert single[1..] == [] && pair[1..] == [0xDE00] && pair[1..][1..] == [];
    assert Utf16(single) == [0xD83D, 0xDE00];
    assert Utf16(pair[1..]) == [0xDE00];
    assert Utf16(pair) == [0xD83D, 0xDE00];
  }

  // ---------------------------------------------------------------- values

  /** The text keys of a dictionary. */
  function TextKeys(v: Value): set<Text>
    requires v.Dict?
  {
    set k | k in v.entries.Keys && k.TextKey? :: k.text
  }

  function Encode(v: Value): (s: string)
    requires IsJsonValue(v)
    ensures s != "" && s[0] !in {',', ':', ']', '}'}
    decreases v, 1, 0
  {
    match v
    case Null => "null"
    case Bool(flag) => if flag then "true" else "false"
    case Int(number) => IntegerText(number)
    case Real(float) => float.repr
    case Str(text) => Quote(text)
    case List(items) => "[" + EncodeItems(v, 0) + "]"
    case Dict(entries) => "{" + EncodeMembers(v, TextKeys(v), true) + "}"
  }

  function EncodeItems(v: Value, i: nat): string
    requires v.List? && IsJsonValue(v) && i <= |v.items|
    decreases v, 0, |v.items| - i
  {
    if i == |v.items| then ""
    else (if i == 0 then "" else ",") + Encode(v.items[i]) + EncodeItems(v, i + 1)
  }

  /** The members still to be written, in key order. */
  function EncodeMembers(v: Value, ks: set<Text>, first: bool): string
    requires v.Dict? && IsJsonValue(v) && ks <= TextKeys(v)
    decreases v, 0, |ks|
  {
    if ks == {} then ""
    else
      var k := Least(ks, (t: Text) => t);
      (if first then "" else ",") + Quote(k) + ":" + Encode(v.entries[TextKey(k)]) + EncodeMembers(v, ks - {k}, false)
  }

  predicate AllJoined(v: Value)
  {
    match v
    case Str(text) => Joined(text)
    case List(items) => forall i | 0 <= i < |items| :: AllJoined(items[i])
    case Dict(entries) => forall k | k in entries :: (k.TextKey? ==> Joined(k.text)) && AllJoined(entries[k])
    case _ => true
  }

  ghost function FirstKey(ks: set<Text>): (k: Text)
    requires ks != {}
    ensures k in ks
  {
    Least(ks, (t: Text) => t)
  }

  /** Equal up to the UTF-16 form of their strings; dictionaries are compared member by member, in key order. */
  ghost predicate Alike(v: Value, w: Value)
    requires IsJsonValue(v) && IsJsonValue(w)
    decreases v, 1, 0
  {
    match v
    case Str(text) => w.Str? && Utf16(text) == Utf16(w.text)
    case List(items) => w.List? && |items| == |w.items| && forall i | 0 <= i < |items| :: Alike(items[i], w.items[i])
    case Dict(_) => w.Dict? && AlikeMembers(v, w, TextKeys(v), TextKeys(w))
    case _ => v == w
  }

  ghost predicate AlikeMembers(v: Value, w: Value, ks: set<Text>, ls: set<Text>)
    requires v.Dict? && w.Dict? && IsJsonValue(v) && IsJsonValue(w) && ks <= TextKeys(v) && ls <= TextKeys(w)
    decreases v, 0, |ks|
  {
    if ks == {} || ls == {} then ks == ls
    else
      var k, l := FirstKey(ks), FirstKey(ls);
      Utf16(k) == Utf16(l) && Alike(v.entries[TextKey(k)], w.entries[TextKey(l)]) && AlikeMembers(v, w, ks - {k}, ls - {l})
  }

  /** What may follow a value inside a canonical text. */
  ghost predicate Tail(x: string)
  {
    x == "" || x[0] in {',', ']', '}'}
  }

  lemma NumbersReach(a: string, b: string, x: string, y: string)
    requires forall i | 0 <= i < |b| :: IsNumberChar(b[i])
    requires Tail(x) && a + x == b + y
    ensures |b| <= |a|
  {
    assert forall i | 0 <= i < |b| :: IsNumberChar((b + y)[i]);
    assert x != "" ==> (a + x)[|a|] == x[0];
  }

  lemma NumbersUnique(a: string, b: string, x: string, y: string)
    requires forall i | 0 <= i < |a| :: IsNumberChar(a[i])
    requires forall i | 0 <= i < |b| :: IsNumberChar(b[i])
    requires Tail(x) && Tail(y) && a + x == b + y
    ensures a == b && x == y
  {
    var s := a + x;
    NumbersReach(a, b, x, y);
    NumbersReach(b, a, y, x);
    assert a == s[..|a|] == b;
    assert x == s[|a|..] == y;
  }

  lemma IntegerTextShape(i: int)
    ensures forall k | 0 <= k < |IntegerText(i)| :: IsDigit(IntegerText(i)[k]) || IntegerText(i)[k] == '-'
  {
  }

  ghost predicate Fits(v: Value)
  {
    IsJsonValue(v) && AllJoined(v)
  }

  lemma Regroup(a: string, b: string, c: string, d: string)
    ensures a + b + c + d == a + (b + (c + d))
  {
  }

  /** The first character of a text tells the kind of value. */
  lemma KindByHead(v: Value)
    requires IsJsonValue(v)
    ensures v.List? <==> Encode(v)[0] == '['
    ensures v.Dict? <==> Encode(v)[0] == '{'
    ensures v.Str? <==> Encode(v)[0] == '"'
    ensures v.Int? || v.Real? <==> IsNumberChar(Encode(v)[0])
  {
    if v.Int? || v.Real? {
      NumberShape(v);
    }
  }

  /** A canonical text that is followed by an admissible tail tells the value, up to the UTF-16 form of its strings, and the tail. */
  lemma {:induction false} EncodeUnique(v: Value, w: Value, x: string, y: string)
    requires IsJsonValue(v) && IsJsonValue(w) && Tail(x) && Tail(y)
    requires Encode(v) + x == Encode(w) + y
    ensures Alike(v, w) && x == y
    decreases v, 1, 0
  {
    assert Encode(v)[0] == (Encode(v) + x)[0] == Encode(w)[0];
    KindByHead(v);
    KindByHead(w);
    if v.Str? {
      StringsUnique(v.text, w, x, y);
    } else if v.List? {
      ListText(v, x);
      ListText(w, y);
      ItemsUnique(v, w, 0, x, y);
    } else if v.Dict? {
      DictText(v, x);
      DictText(w, y);
      MembersUnique(v, w, TextKeys(v), TextKeys(w), true, x, y);
    } else {
      ScalarsUnique(v, w, x, y);
    }
  }

  lemma ListText(v: Value, x: string)
    requires v.List? && IsJsonValue(v)
    ensures (Encode(v) + x)[1..] == ItemsFrom(v, 0, x)
  {
    Regroup("[", EncodeItems(v, 0), "]", x);
  }

  lemma DictText(v: Value, x: string)
    requires v.Dict? && IsJsonValue(v)
    ensures (Encode(v) + x)[1..] == MembersFrom(v, TextKeys(v), true, x)
  {
    Regroup("{", EncodeMembers(v, TextKeys(v), true), "}", x);
  }

  lemma SameEntries(v: Value, w: Value)
    requires v.Dict? && w.Dict? && IsJsonValue(v) && IsJsonValue(w) && TextKeys(v) == TextKeys(w)
    requires forall k | k in TextKeys(v) :: v.entries[TextKey(k)] == w.entries[TextKey(k)]
    ensures v == w
  {
    forall k | k in v.entries
      ensures k in w.entries && v.entries[k] == w.entries[k]
    {
      assert k.text in TextKeys(v);
    }
    forall k | k in w.entries
      ensures k in v.entries
    {
      assert k.text in TextKeys(w);
    }
    assert v.entries == w.entries;
  }

  lemma ScalarsUnique(v: Value, w: Value, x: string, y: string)
    requires v.Null? || v.Bool? || v.Int? || v.Real?
    requires IsJsonValue(v) && IsJsonValue(w) && Tail(x) && Tail(y)
    requires Encode(v) + x == Encode(w) + y
    ensures v == w && x == y
  {
    var s, a, b := Encode(v) + x, Encode(v), Encode(w);
    assert s[0] == a[0] == b[0];
    if v.Int? || v.Real? {
      NumberShape(v);
      assert IsNumberChar(b[0]);
      assert w.Int? || w.Real?;
      NumberShape(w);
      NumbersUnique(a, b, x, y);
      NumbersApart(v, w);
    } else {
      if w.Int? || w.Real? {
        NumberShape(w);
      }
      assert a == b;
      assert x == s[|a|..] == y;
    }
  }

  lemma NumberShape(v: Value)
    requires IsJsonValue(v) && (v.Int? || v.Real?)
    ensures forall i | 0 <= i < |Encode(v)| :: IsNumberChar(Encode(v)[i])
  {
    if v.Int? {
      IntegerTextShape(v.number);
    }
  }

  lemma NumbersApart(v: Value, w: Value)
    requires IsJsonValue(v) && (v.Int? || v.Real?) && IsJsonValue(w) && (w.Int? || w.Real?)
    requires Encode(v) == Encode(w)
    ensures v == w
  {
    if v.Int? && w.Int? {
      IntegerTextInjective(v.number, w.number);
    } else if v.Int? {
      IntegerTextShape(v.number);
    } else if w.Int? {
      IntegerTextShape(w.number);
    }
  }

  lemma AfterQuote(t: Text, x: string)
    ensures (Quote(t) + x)[1..] == Escapes(Utf16(t)) + ("\"" + x)
  {
  }

  /** A quoted string is told from what follows it. */
  lemma QuotesUnique(a: Text, b: Text, x: string, y: string)
    requires Quote(a) + x == Quote(b) + y
    ensures Utf16(a) == Utf16(b) && x == y
  {
    AfterQuote(a, x);
    AfterQuote(b, y);
    EscapesUnique(Utf16(a), Utf16(b), "\"" + x, "\"" + y);
    CutPrefix("\"", x, y);
  }

  lemma StringsUnique(a: Text, w: Value, x: string, y: string)
    requires IsJsonValue(w) && Quote(a) + x == Encode(w) + y
    ensures w.Str? && Utf16(a) == Utf16(w.text) && x == y
  {
    assert Encode(w)[0] == (Quote(a) + x)[0];
    KindByHead(w);
    QuotesUnique(a, w.text, x, y);
  }

  /** What follows the item before position `i`. */
  ghost function ItemsFrom(v: Value, i: nat, x: string): string
    requires v.List? && IsJsonValue(v) && i <= |v.items|
  {
    EncodeItems(v, i) + ("]" + x)
  }

  lemma ItemsStep(v: Value, i: nat, x: string)
    requires v.List? && IsJsonValue(v) && i < |v.items|
    ensures ItemsFrom(v, i, x) == (if i == 0 then "" else ",") + (Encode(v.items[i]) + ItemsFrom(v, i + 1, x))
  {
    Regroup(if i == 0 then "" else ",", Encode(v.items[i]), EncodeItems(v, i + 1), "]" + x);
  }

  lemma ItemsHead(v: Value, i: nat, x: string)
    requires v.List? && IsJsonValue(v) && i <= |v.items|
    ensures ItemsFrom(v, i, x) != "" && (i < |v.items| <==> ItemsFrom(v, i, x)[0] != ']')
    ensures i == |v.items| ==> ItemsFrom(v, i, x) == "]" + x
    ensures i > 0 ==> Tail(ItemsFrom(v, i, x))
  {
    if i < |v.items| {
      ItemsStep(v, i, x);
    }
  }

  lemma ItemsFirst(v: Value, w: Value, i: nat, x: string, y: string)
    requires v.List? && w.List? && IsJsonValue(v) && IsJsonValue(w) && i <= |v.items| && i <= |w.items|
    requires ItemsFrom(v, i, x) == ItemsFrom(w, i, y)
    ensures i == |v.items| <==> i == |w.items|
    ensures i == |v.items| ==> x == y
    ensures i < |v.items| ==>
      Encode(v.items[i]) + ItemsFrom(v, i + 1, x) == Encode(w.items[i]) + ItemsFrom(w, i + 1, y)
  {
    ItemsHead(v, i, x);
    ItemsHead(w, i, y);
    if i == |v.items| {
      CutPrefix("]", x, y);
    } else {
      ItemsStep(v, i, x);
      ItemsStep(w, i, y);
      CutPrefix(if i == 0 then "" else ",", Encode(v.items[i]) + ItemsFrom(v, i + 1, x), Encode(w.items[i]) + ItemsFrom(w, i + 1, y));
    }
  }

  lemma {:induction false} ItemsUnique(v: Value, w: Value, i: nat, x: string, y: string)
    requires v.List? && w.List? && IsJsonValue(v) && IsJsonValue(w) && i <= |v.items| && i <= |w.items|
    requires Tail(x) && Tail(y) && ItemsFrom(v, i, x) == ItemsFrom(w, i, y)
    ensures |v.items| == |w.items| && x == y && forall j | i <= j < |v.items| :: Alike(v.items[j], w.items[j])
    decreases v, 0, |v.items| - i
  {
    hide Encode, EncodeItems, ItemsFrom, Tail;
    ItemsFirst(v, w, i, x, y);
    if i < |v.items| {
      ItemsHead(v, i + 1, x);
      ItemsHead(w, i + 1, y);
      var x', y' := ItemsFrom(v, i + 1, x), ItemsFrom(w, i + 1, y);
      EncodeUnique(v.items[i], w.items[i], x', y');
      ItemsUnique(v, w, i + 1, x, y);
    }
  }

  lemma CutPrefix(a: string, x: string, y: string)
    requires a + x == a + y
    ensures x == y
  {
    assert x == (a + x)[|a|..] == (a + y)[|a|..] == y;
  }

  ghost function MembersFrom(v: Value, ks: set<Text>, first: bool, x: string): string
    requires v.Dict? && IsJsonValue(v) && ks <= TextKeys(v)
  {
    EncodeMembers(v, ks, first) + ("}" + x)
  }

  /** The value of key `k` and everything after it. */
  ghost function MemberValue(v: Value, k: Text, ks: set<Text>, x: string): string
    requires v.Dict? && IsJsonValue(v) && k in ks && ks <= TextKeys(v)
  {
    Encode(v.entries[TextKey(k)]) + MembersFrom(v, ks - {k}, false, x)
  }

  lemma MembersStep(v: Value, ks: set<Text>, first: bool, x: string)
    requires v.Dict? && IsJsonValue(v) && ks <= TextKeys(v) && ks != {}
    ensures MembersFrom(v, ks, first, x) ==
      (if first then "" else ",") + (Quote(FirstKey(ks)) + (":" + MemberValue(v, FirstKey(ks), ks, x)))
  {
    var sep, k := if first then "" else ",", FirstKey(ks);
    var e, r := Encode(v.entries[TextKey(k)]), EncodeMembers(v, ks - {k}, false);
    assert EncodeMembers(v, ks, first) == sep + Quote(k) + ":" + e + r;
    RegroupMember(sep, Quote(k), e, r, "}" + x);
  }

  lemma RegroupMember(a: string, b: string, c: string, d: string, x: string)
    ensures a + b + ":" + c + d + x == a + (b + (":" + (c + (d + x))))
  {
  }

  lemma MembersHead(v: Value, ks: set<Text>, first: bool, x: string)
    requires v.Dict? && IsJsonValue(v) && ks <= TextKeys(v)
    ensures MembersFrom(v, ks, first, x) != "" && (ks != {} <==> MembersFrom(v, ks, first, x)[0] != '}')
    ensures ks == {} ==> MembersFrom(v, ks, first, x) == "}" + x
    ensures !first ==> Tail(MembersFrom(v, ks, first, x))
  {
    if ks != {} {
      MembersStep(v, ks, first, x);
    }
  }

  /** Two members that start alike have the same key in UTF-16, and the same text after it. */
  lemma SameFirstKey(sep: string, k: Text, l: Text, x: string, y: string)
    requires sep + (Quote(k) + (":" + x)) == sep + (Quote(l) + (":" + y))
    ensures Utf16(k) == Utf16(l) && x == y
  {
    CutPrefix(sep, Quote(k) + (":" + x), Quote(l) + (":" + y));
    QuotesUnique(k, l, ":" + x, ":" + y);
    CutPrefix(":", x, y);
  }

  lemma MembersFirst(v: Value, w: Value, ks: set<Text>, ls: set<Text>, first: bool, x: string, y: string)
    requires v.Dict? && w.Dict? && IsJsonValue(v) && IsJsonValue(w) && ks <= TextKeys(v) && ls <= TextKeys(w)
    requires MembersFrom(v, ks, first, x) == MembersFrom(w, ls, first, y)
    ensures ks == {} <==> ls == {}
    ensures ks == {} ==> x == y
    ensures ks != {} ==>
      Utf16(FirstKey(ks)) == Utf16(FirstKey(ls)) && MemberValue(v, FirstKey(ks), ks, x) == MemberValue(w, FirstKey(ls), ls, y)
  {
    MembersHead(v, ks, first, x);
    MembersHead(w, ls, first, y);
    if ks == {} {
      CutPrefix("}", x, y);
    } else {
      var k, l := FirstKey(ks), FirstKey(ls);
      MembersStep(v, ks, first, x);
      MembersStep(w, ls, first, y);
      SameFirstKey(if first then "" else ",", k, l, MemberValue(v, k, ks, x), MemberValue(w, l, ls, y));
    }
  }

  lemma {:induction false} MembersUnique(v: Value, w: Value, ks: set<Text>, ls: set<Text>, first: bool, x: string, y: string)
    requires v.Dict? && w.Dict? && IsJsonValue(v) && IsJsonValue(w) && ks <= TextKeys(v) && ls <= TextKeys(w)
    requires Tail(x) && Tail(y) && MembersFrom(v, ks, first, x) == MembersFrom(w, ls, first, y)
    ensures AlikeMembers(v, w, ks, ls) && x == y
    decreases v, 0, |ks|
  {
    MembersFirst(v, w, ks, ls, first, x, y);
    if ks != {} {
      var k, l := FirstKey(ks), FirstKey(ls);
      MembersHead(v, ks - {k}, false, x);
      MembersHead(w, ls - {l}, false, y);
      EncodeUnique(v.entries[TextKey(k)], w.entries[TextKey(l)],
        MembersFrom(v, ks - {k}, false, x), MembersFrom(w, ls - {l}, false, y));
      MembersUnique(v, w, ks - {k}, ls - {l}, false, x, y);
    }
  }

  // ---------------------------------------------------------------- when texts are equal

  lemma {:induction false} AlikeEncodes(v: Value, w: Value)
    requires IsJsonValue(v) && IsJsonValue(w) && Alike(v, w)
    ensures Encode(v) == Encode(w)
    decreases v, 1, 0
  {
    if v.List? {
      ItemsEncode(v, w, 0);
    } else if v.Dict? {
      MembersEncode(v, w, TextKeys(v), TextKeys(w), true);
    }
  }

  lemma {:induction false} ItemsEncode(v: Value, w: Value, i: nat)
    requires v.List? && IsJsonValue(v) && IsJsonValue(w) && Alike(v, w) && i <= |v.items|
    ensures EncodeItems(v, i) == EncodeItems(w, i)
    decreases v, 0, |v.items| - i
  {
    if i < |v.items| {
      AlikeEncodes(v.items[i], w.items[i]);
      ItemsEncode(v, w, i + 1);
    }
  }

  lemma {:induction false} MembersEncode(v: Value, w: Value, ks: set<Text>, ls: set<Text>, first: bool)
    requires v.Dict? && w.Dict? && IsJsonValue(v) && IsJsonValue(w) && ks <= TextKeys(v) && ls <= TextKeys(w)
    requires AlikeMembers(v, w, ks, ls)
    ensures EncodeMembers(v, ks, first) == EncodeMembers(w, ls, first)
    decreases v, 0, |ks|
  {
    if ks != {} {
      var k, l := FirstKey(ks), FirstKey(ls);
      AlikeEncodes(v.entries[TextKey(k)], w.entries[TextKey(l)]);
      MembersEncode(v, w, ks - {k}, ls - {l}, false);
    }
  }

  /** Where every string is joined, values that are alike are equal. */
  lemma {:induction false} JoinedAlike(v: Value, w: Value)
    requires Fits(v) && Fits(w) && Alike(v, w)
    ensures v == w
    decreases v, 1, 0
  {
    match v
    case Str(text) => Utf16Injective(text, w.text);
    case List(items) =>
      forall i | 0 <= i < |items|
        ensures items[i] == w.items[i]
      {
        JoinedAlike(items[i], w.items[i]);
      }
      assert items == w.items;
    case Dict(_) =>
      JoinedMembers(v, w, TextKeys(v), TextKeys(w));
      SameEntries(v, w);
    case _ =>
  }

  lemma {:induction false} JoinedMembers(v: Value, w: Value, ks: set<Text>, ls: set<Text>)
    requires v.Dict? && w.Dict? && Fits(v) && Fits(w) && ks <= TextKeys(v) && ls <= TextKeys(w) && AlikeMembers(v, w, ks, ls)
    ensures ks == ls && forall k | k in ks :: v.entries[TextKey(k)] == w.entries[TextKey(k)]
    decreases v, 0, |ks|
  {
    hide Alike, Utf16, Joined, Fits;
    if ks != {} {
      var k, l := FirstKey(ks), FirstKey(ls);
      KeyJoined(v, k);
      KeyJoined(w, l);
      Utf16Injective(k, l);
      JoinedAlike(v.entries[TextKey(k)], w.entries[TextKey(k)]);
      JoinedMembers(v, w, ks - {k}, ls - {k});
      assert ks == (ks - {k}) + {k} && ls == (ls - {k}) + {k};
    }
  }

  lemma KeyJoined(v: Value, k: Text)
    requires v.Dict? && Fits(v) && k in TextKeys(v)
    ensures TextKey(k) in v.entries && Joined(k) && Fits(v.entries[TextKey(k)])
  {
  }

  /**
   Texts are equal exactly for values that are alike: key order never matters, types always do, and of strings only
   the UTF-16 form does. Where every string is joined that is equality of values.
   */
  lemma EncodeExact(v: Value, w: Value)
    requires IsJsonValue(v) && IsJsonValue(w)
    ensures Encode(v) == Encode(w) <==> Alike(v, w)
    ensures AllJoined(v) && AllJoined(w) ==> (Encode(v) == Encode(w) <==> v == w)
  {
    if Encode(v) == Encode(w) {
      EncodeUnique(v, w, "", "");
      if AllJoined(v) && AllJoined(w) {
        JoinedAlike(v, w);
      }
    }
    if Alike(v, w) {
      AlikeEncodes(v, w);
    }
  }
}
