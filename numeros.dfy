/** Decimal numerals, as Python's `str(n)` writes a non-negative int inside the
    f-strings of the dashboard ("OK=3/4", "HTTP 500: ..."). */
module Numeros {
  import opened Comun

  predicate EsDigito(c: char) {
    '0' <= c <= '9'
  }

  function Digito(d: nat): (c: char)
    requires d < 10
    ensures EsDigito(c)
    ensures c as int - '0' as int == d
  {
    ('0' as int + d) as char
  }

  function ValorDigito(c: char): (d: nat)
    requires EsDigito(c)
    ensures d < 10
  {
    c as int - '0' as int
  }

  /** `str(n)`: the shortest decimal numeral of n. */
  function Decimal(n: nat): (s: string)
    ensures |s| >= 1
    ensures forall i :: 0 <= i < |s| ==> EsDigito(s[i])
    ensures s[0] == '0' <==> n == 0
  {
    if n < 10 then [Digito(n)] else Decimal(n / 10) + [Digito(n % 10)]
  }

  /** The value of a string of decimal digits: `int(s)` when `s` is not
      empty, and 0 for the empty string. */
  function LeerDecimal(s: string): nat
    requires forall i :: 0 <= i < |s| ==> EsDigito(s[i])
    decreases |s|
  {
    if s == [] then 0 else LeerDecimal(s[..|s| - 1]) * 10 + ValorDigito(s[|s| - 1])
  }

  /** Reading a numeral back gives the number: the counts in a status comment
      determine the counts that produced it. */
  lemma {:induction false} LeerDecimalDeDecimal(n: nat)
    ensures LeerDecimal(Decimal(n)) == n
  {
    if n >= 10 {
      var s := Decimal(n);
      assert s[..|s| - 1] == Decimal(n / 10);
      LeerDecimalDeDecimal(n / 10);
    }
  }

  /** Distinct counts print differently. */
  lemma DecimalInyectivo(m: nat, n: nat)
    requires Decimal(m) == Decimal(n)
    ensures m == n
  {
    LeerDecimalDeDecimal(m);
    LeerDecimalDeDecimal(n);
  }

  /** The slash written after `x` is the character at position `|x|`. */
  lemma BarraTras(x: string, y: string)
    ensures (x + "/" + y)[|x|] == '/'
  {
  }

  /** After a common prefix, two digit strings each followed by a slash: the
      slash sits at the same place in both, so the parts on either side
      agree. */
  lemma CortarEnBarra(p: string, x: string, y: string, u: string, v: string)
    requires forall i :: 0 <= i < |x| ==> EsDigito(x[i])
    requires forall i :: 0 <= i < |u| ==> EsDigito(u[i])
    requires p + x + "/" + y == p + u + "/" + v
    ensures x == u && y == v
  {
    var s1, s2 := x + "/" + y, u + "/" + v;
    assert s1 == (p + x + "/" + y)[|p|..];
    assert s2 == (p + u + "/" + v)[|p|..];
    if |x| < |u| {
      BarraTras(x, y);
      assert false;
    } else if |u| < |x| {
      BarraTras(u, v);
      assert false;
    }
    assert x == s1[..|x|] && u == s2[..|u|];
    assert y == s1[|x| + 1..] && v == s2[|u| + 1..];
  }

  /** A fraction "a/b" written as in the dashboard's comments, after a fixed
      prefix, determines both numbers. */
  lemma FraccionInyectiva(p: string, a: nat, b: nat, c: nat, d: nat)
    requires p + Decimal(a) + "/" + Decimal(b) == p + Decimal(c) + "/" + Decimal(d)
    ensures a == c && b == d
  {
    CortarEnBarra(p, Decimal(a), Decimal(b), Decimal(c), Decimal(d));
    DecimalInyectivo(a, c);
    DecimalInyectivo(b, d);
  }

  /** Two texts whose prefixes differ at a position inside both differ,
      whatever follows the prefixes. */
  lemma PrefijosDistintos(a: string, b: string, x: string, y: string, k: nat)
    requires k < |a| && k < |b| && a[k] != b[k]
    ensures a + x != b + y
  {
    assert (a + x)[k] == a[k];
    assert (b + y)[k] == b[k];
  }

  /** A prefix followed by a fraction is the prefix followed by the fraction's text. */
  lemma FraccionTras(p: string, a: nat, b: nat)
    ensures p + Decimal(a) + "/" + Decimal(b) == p + (Decimal(a) + "/" + Decimal(b))
  {
    Asociar(p, Decimal(a), "/");
    Asociar(p, Decimal(a) + "/", Decimal(b));
  }
}
