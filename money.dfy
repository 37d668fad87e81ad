/**
 * Money as the `DecimalField(max_digits=10, decimal_places=2)` columns hold it: a whole number of
 * kopecks, shown the way `str(Decimal)` shows a value with two decimal places.
 */
module Money {
  import opened Optional
  import opened Text

  /** An amount in hundredths of a rouble. */
  type Cents = int

  /** The amount in roubles, as `float(value)` gives it. */
  function Rubles(c: Cents): real {
    c as real / 100.0
  }

  function Abs(c: int): nat {
    if c < 0 then -c else c
  }

  /** `str(value)` for a two-place decimal: sign, whole roubles, a point and two digits. */
  function DecimalText(c: Cents): string {
    var a := Abs(c);
    Sign(c) + NatToString(a / 100) + "." + [DigitChar(a % 100 / 10), DigitChar(a % 10)]
  }

  lemma DigitCharInjective(d: nat, e: nat)
    requires d < 10 && e < 10 && DigitChar(d) == DigitChar(e)
    ensures d == e
  {
  }

  lemma NatToStringInjective(m: nat, n: nat)
    requires NatToString(m) == NatToString(n)
    ensures m == n
  {
    NatToStringValue(m);
    NatToStringValue(n);
  }

  lemma SameTail(p: string, t: string, p': string, t': string)
    requires p + t == p' + t' && |t| == |t'|
    ensures p == p' && t == t'
  {
    assert p == (p + t)[..|p|];
    assert p' == (p' + t')[..|p'|];
    assert t == (p + t)[|p|..];
    assert t' == (p' + t')[|p'|..];
  }

  lemma Places(a: nat)
    ensures a == 100 * (a / 100) + 10 * (a % 100 / 10) + a % 10
  {
  }

  function Sign(c: Cents): string {
    if c < 0 then "-" else ""
  }

  /** Equal texts have equal signs and equal whole parts. */
  lemma SameSign(c: Cents, c': Cents)
    requires Sign(c) + NatToString(Abs(c) / 100) == Sign(c') + NatToString(Abs(c') / 100)
    ensures c < 0 <==> c' < 0
  {
    var w, w' := NatToString(Abs(c) / 100), NatToString(Abs(c') / 100);
    assert (Sign(c) + w)[0] == (if c < 0 then '-' else w[0]);
    assert (Sign(c') + w')[0] == (if c' < 0 then '-' else w'[0]);
  }

  /** Two amounts with the same text are the same amount. */
  lemma DecimalTextInjective(c: Cents, c': Cents)
    requires DecimalText(c) == DecimalText(c')
    ensures c == c'
  {
    var a, a' := Abs(c), Abs(c');
    var w, w' := NatToString(a / 100), NatToString(a' / 100);
    var d, d' := [DigitChar(a % 100 / 10), DigitChar(a % 10)], [DigitChar(a' % 100 / 10), DigitChar(a' % 10)];
    assert DecimalText(c) == (Sign(c) + w + ".") + d;
    assert DecimalText(c') == (Sign(c') + w' + ".") + d';
    SameTail(Sign(c) + w + ".", d, Sign(c') + w' + ".", d');
    SameTail(Sign(c) + w, ".", Sign(c') + w', ".");
    assert d[0] == d'[0] && d[1] == d'[1];
    DigitCharInjective(a % 10, a' % 10);
    DigitCharInjective(a % 100 / 10, a' % 100 / 10);
    SameSign(c, c');
    SameTail(Sign(c), w, Sign(c'), w');
    NatToStringInjective(a / 100, a' / 100);
    Places(a);
    Places(a');
  }

  /** `x` ends in a point and two characters, and that point is the first in `x`. */
  predicate PointAt3(x: string) {
    |x| >= 4 && x[|x| - 3] == '.' && forall i :: 0 <= i < |x| - 3 ==> x[i] != '.'
  }

  /** Of two texts starting with such a prefix, equal texts have prefixes of equal length. */
  lemma SamePoint(x: string, r: string, y: string, t: string)
    requires PointAt3(x) && PointAt3(y) && x + r == y + t
    ensures |x| == |y|
  {
    var s := x + r;
    assert s[|x| - 3] == '.' && s[|y| - 3] == '.';
  }

  /** The text ends in a point and two digits, and the point is the first in the text. */
  lemma DecimalTextShape(c: Cents)
    ensures PointAt3(DecimalText(c))
  {
    var a := Abs(c);
    var w := NatToString(a / 100);
    var s := DecimalText(c);
    var sign := Sign(c);
    assert s == sign + w + "." + [DigitChar(a % 100 / 10), DigitChar(a % 10)];
    forall i | 0 <= i < |s| - 3 ensures s[i] != '.' {
      if i >= |sign| {
        assert s[i] == w[i - |sign|];
      }
    }
  }

  // ---------------------------------------------------------------- Python's mixed arithmetic

  /** A Python number: a `Decimal` (what a DecimalField column loads as), a `float` or an `int`. */
  datatype PyNumber = PyDecimal(d: real) | PyFloat(f: real) | PyInt(i: int)

  function Value(x: PyNumber): real {
    match x
    case PyDecimal(d) => d
    case PyFloat(f) => f
    case PyInt(i) => i as real
  }

  /** `Decimal` and `float` do not mix: CPython raises `TypeError` for `*`, `/`, `+` and `-`. */
  predicate Mixes(x: PyNumber, y: PyNumber) {
    (x.PyDecimal? && y.PyFloat?) || (x.PyFloat? && y.PyDecimal?)
  }

  /** The type of a result: Decimal if either side is, else float if either side is, else int. */
  function Promote(x: PyNumber, y: PyNumber, v: real): PyNumber {
    if x.PyDecimal? || y.PyDecimal? then PyDecimal(v)
    else if x.PyFloat? || y.PyFloat? then PyFloat(v)
    else PyInt(v.Floor)
  }

  /** `x * y`, None where Python raises `TypeError`. */
  function PyMul(x: PyNumber, y: PyNumber): (r: Option<PyNumber>)
    ensures r.None? <==> Mixes(x, y)
  {
    if Mixes(x, y) then None else Some(Promote(x, y, Value(x) * Value(y)))
  }

  /** `x - y`, None where Python raises `TypeError`. */
  function PySub(x: PyNumber, y: PyNumber): (r: Option<PyNumber>)
    ensures r.None? <==> Mixes(x, y)
  {
    if Mixes(x, y) then None else Some(Promote(x, y, Value(x) - Value(y)))
  }
}
