/** Python text: strings as sequences of code points, their sort order, and decimal numerals. */
module Text {

  // A Python `str` may hold any code point, lone surrogates included.
  type CodePoint = c: int | 0 <= c < 0x110000
  type Text = seq<CodePoint>

  /** The text of a Dafny string literal (a Dafny `char` is never a surrogate). */
  function FromString(s: string): (t: Text)
    ensures |t| == |s|
    ensures forall i | 0 <= i < |s| :: t[i] == s[i] as int
  {
    seq(|s|, i requires 0 <= i < |s| => s[i] as int)
  }

  lemma FromStringInjective(a: string, b: string)
    requires FromString(a) == FromString(b)
    ensures a == b
  {
    assert |a| == |b|;
    forall i | 0 <= i < |a|
      ensures a[i] == b[i]
    {
      assert FromString(a)[i] == FromString(b)[i];
    }
  }

  lemma FromStringInjectiveAll()
    ensures forall a, b | FromString(a) == FromString(b) :: a == b
  {
    forall a, b | FromString(a) == FromString(b)
      ensures a == b
    {
      FromStringInjective(a, b);
    }
  }

  /** Python's `<` on strings: lexicographic by code point. */
  predicate Less(a: Text, b: Text)
  {
    b != [] && (a == [] || a[0] < b[0] || (a[0] == b[0] && Less(a[1..], b[1..])))
  }

  lemma {:induction false} LessTotal(a: Text, b: Text)
    ensures a == b || Less(a, b) || Less(b, a)
  {
    if a != [] && b != [] && a[0] == b[0] {
      LessTotal(a[1..], b[1..]);
      assert a == [a[0]] + a[1..] && b == [b[0]] + b[1..];
    }
  }

  lemma {:induction false} LessTransitive(a: Text, b: Text, c: Text)
    requires Less(a, b) && Less(b, c)
    ensures Less(a, c)
  {
    if a != [] && a[0] == b[0] == c[0] {
      LessTransitive(a[1..], b[1..], c[1..]);
    }
  }

  lemma {:induction false} LessIrreflexive(a: Text)
    ensures !Less(a, a)
  {
    if a != [] {
      LessIrreflexive(a[1..]);
    }
  }

  ghost predicate Distinguishes<K(!new)>(text: K -> Text, ks: set<K>)
  {
    forall a, b | a in ks && b in ks && text(a) == text(b) :: a == b
  }

  predicate IsLeast<K>(k: K, ks: set<K>, text: K -> Text)
  {
    k in ks && forall j | j in ks :: !Less(text(j), text(k))
  }

  lemma {:induction false} LeastExists<K>(ks: set<K>, text: K -> Text)
    requires ks != {}
    ensures exists k :: IsLeast(k, ks, text)
    decreases |ks|
  {
    var x :| x in ks;
    var rest := ks - {x};
    LessIrreflexive(text(x));
    if rest == {} {
      assert ks == {x};
      assert IsLeast(x, ks, text);
    } else {
      LeastExists(rest, text);
      var y :| IsLeast(y, rest, text);
      if Less(text(x), text(y)) {
        forall j | j in ks
          ensures !Less(text(j), text(x))
        {
          if j != x && Less(text(j), text(x)) {
            LessTransitive(text(j), text(x), text(y));
          }
        }
        assert IsLeast(x, ks, text);
      } else {
        assert IsLeast(y, ks, text);
      }
    }
  }

  lemma LeastUnique<K(!new)>(ks: set<K>, text: K -> Text)
    requires Distinguishes(text, ks)
    ensures forall k, l | IsLeast(k, ks, text) && IsLeast(l, ks, text) :: k == l
  {
    forall k, l | IsLeast(k, ks, text) && IsLeast(l, ks, text)
      ensures k == l
    {
      LessTotal(text(k), text(l));
    }
  }

  /** The first key in sort order. */
  function Least<K(==, !new)>(ks: set<K>, text: K -> Text): (k: K)
    requires ks != {} && Distinguishes(text, ks)
    ensures IsLeast(k, ks, text)
  {
    LeastExists(ks, text);
    LeastUnique(ks, text);
    var k :| IsLeast(k, ks, text);
    k
  }

  /** `sorted(...)` over distinct keys. */
  function Sorted<K(==, !new)>(ks: set<K>, text: K -> Text): (s: seq<K>)
    requires Distinguishes(text, ks)
    ensures |s| == |ks|
    ensures forall k :: k in s <==> k in ks
    ensures forall i, j | 0 <= i < j < |s| :: s[i] != s[j] && !Less(text(s[j]), text(s[i]))
    decreases |ks|
  {
    if ks == {} then [] else
      var k := Least(ks, text);
      [k] + Sorted(ks - {k}, text)
  }
}

/** Decimal numerals as Python prints and parses integers. */
module Decimals {

  predicate IsDigit(c: char)
  {
    '0' <= c <= '9'
  }

  predicate AllDigits(s: string)
  {
    forall i | 0 <= i < |s| :: IsDigit(s[i])
  }

  /** A numeral without leading zeros. */
  predicate Canonical(s: string)
  {
    s != "" && AllDigits(s) && (s[0] == '0' ==> |s| == 1)
  }

  function Decimal(n: nat): (s: string)
    ensures Canonical(s)
    ensures n > 0 ==> s[0] != '0'
  {
    if n < 10 then [('0' as int + n) as char] else Decimal(n / 10) + [('0' as int + n % 10) as char]
  }

  function Numeral(s: string): nat
    requires AllDigits(s)
  {
    if s == "" then 0 else 10 * Numeral(s[..|s| - 1]) + (s[|s| - 1] as int - '0' as int)
  }

  lemma {:induction false} NumeralOfDecimal(n: nat)
    ensures Numeral(Decimal(n)) == n
  {
    if n >= 10 {
      NumeralOfDecimal(n / 10);
      var s := Decimal(n);
      assert s[..|s| - 1] == Decimal(n / 10);
    } else {
      assert Decimal(n)[..0] == "";
    }
  }

  lemma {:induction false} NumeralPositive(s: string)
    requires AllDigits(s) && s != "" && s[0] != '0'
    ensures Numeral(s) > 0
  {
    if |s| > 1 {
      NumeralPositive(s[..|s| - 1]);
    }
  }

  lemma {:induction false} DecimalOfNumeral(s: string)
    requires Canonical(s)
    ensures Decimal(Numeral(s)) == s
  {
    var n := |s| - 1;
    if n > 0 {
      DecimalOfNumeral(s[..n]);
      NumeralPositive(s[..n]);
      assert s == s[..n] + [s[n]];
    } else {
      assert s[..0] == "";
      assert s == [s[0]];
    }
  }

  lemma DecimalInjective(m: nat, n: nat)
    requires Decimal(m) == Decimal(n)
    ensures m == n
  {
    NumeralOfDecimal(m);
    NumeralOfDecimal(n);
  }

  /** `str(i)` for an integer. */
  function IntegerText(i: int): string
  {
    if i < 0 then "-" + Decimal(-i) else Decimal(i)
  }

  lemma IntegerTextInjective(i: int, j: int)
    requires IntegerText(i) == IntegerText(j)
    ensures i == j
  {
    if i < 0 && j < 0 {
      assert IntegerText(i)[1..] == Decimal(-i) && IntegerText(j)[1..] == Decimal(-j);
      DecimalInjective(-i, -j);
    } else if i >= 0 && j >= 0 {
      DecimalInjective(i, j);
    }
  }
}
