/** Dates as the pages hold them: ISO `YYYY-MM-DD` strings, the value of an HTML date
    input. Two such strings compare in time exactly as they compare character by
    character, so the order used here is the lexicographic order on strings. */
module Fechas {

  /** `a` comes no later than `b`, character by character. */
  predicate LexLe(a: string, b: string)
  {
    a == [] || (b != [] && (a[0] < b[0] || (a[0] == b[0] && LexLe(a[1..], b[1..]))))
  }

  lemma {:induction false} LexLeReflexive(a: string)
    ensures LexLe(a, a)
  {
    if a != [] { LexLeReflexive(a[1..]); }
  }

  lemma {:induction false} LexLeTotal(a: string, b: string)
    ensures LexLe(a, b) || LexLe(b, a)
  {
    if a != [] && b != [] && a[0] == b[0] { LexLeTotal(a[1..], b[1..]); }
  }

  lemma {:induction false} LexLeTransitive(a: string, b: string, c: string)
    requires LexLe(a, b) && LexLe(b, c)
    ensures LexLe(a, c)
  {
    if a != [] && a[0] == b[0] && b[0] == c[0] { LexLeTransitive(a[1..], b[1..], c[1..]); }
  }

  lemma {:induction false} LexLeAntisymmetric(a: string, b: string)
    requires LexLe(a, b) && LexLe(b, a)
    ensures a == b
  {
    if a != [] {
      LexLeAntisymmetric(a[1..], b[1..]);
      assert a == [a[0]] + a[1..] && b == [b[0]] + b[1..];
    }
  }

  predicate Digito(c: char) { '0' <= c <= '9' }

  predicate Digitos(s: string) { forall i :: 0 <= i < |s| ==> Digito(s[i]) }

  function Pow10(n: nat): (p: nat)
    ensures p >= 1
  {
    if n == 0 then 1 else 10 * Pow10(n - 1)
  }

  function ValorDigito(c: char): nat
    requires Digito(c)
    ensures ValorDigito(c) <= 9
  {
    c as int - '0' as int
  }

  /** The number a string of decimal digits spells. */
  function Numero(s: string): nat
    requires Digitos(s)
  {
    if s == [] then 0 else ValorDigito(s[0]) * Pow10(|s| - 1) + Numero(s[1..])
  }

  lemma MulLe(x: nat, y: nat, p: nat)
    requires x <= y
    ensures x * p <= y * p
  {
  }

  lemma {:induction false} NumeroCota(s: string)
    requires Digitos(s)
    ensures Numero(s) < Pow10(|s|)
  {
    if s != [] {
      NumeroCota(s[1..]);
      MulLe(ValorDigito(s[0]), 9, Pow10(|s| - 1));
    }
  }

  /** A leading digit smaller than another's makes the whole number smaller. */
  lemma NumeroPrimero(a: string, b: string)
    requires Digitos(a) && Digitos(b) && |a| == |b| && a != []
    requires ValorDigito(a[0]) < ValorDigito(b[0])
    ensures Numero(a) < Numero(b)
  {
    var p := Pow10(|a| - 1);
    NumeroCota(a[1..]);
    MulLe(ValorDigito(a[0]) + 1, ValorDigito(b[0]), p);
    assert (ValorDigito(a[0]) + 1) * p == ValorDigito(a[0]) * p + p;
  }

  /** Digit strings of one length compare as strings exactly as their numbers do. */
  lemma {:induction false} NumeroLex(a: string, b: string)
    requires Digitos(a) && Digitos(b) && |a| == |b|
    ensures LexLe(a, b) <==> Numero(a) <= Numero(b)
  {
    if a != [] {
      if a[0] < b[0] {
        NumeroPrimero(a, b);
      } else if b[0] < a[0] {
        NumeroPrimero(b, a);
      } else {
        NumeroLex(a[1..], b[1..]);
      }
    }
  }

  /** A character both strings have at the same position does not decide their order. */
  lemma {:induction false} LexLeSkip(x: string, u: string, y: string, v: string, c: char)
    requires |x| == |y|
    ensures LexLe(x + [c] + u, y + [c] + v) <==> LexLe(x + u, y + v)
  {
    if x == [] {
      assert y == [] && x + u == u && y + v == v;
      assert x + [c] + u == [c] + u && (x + [c] + u)[1..] == u;
      assert y + [c] + v == [c] + v && (y + [c] + v)[1..] == v;
    } else {
      assert (x + [c] + u)[0] == x[0] && (x + [c] + u)[1..] == x[1..] + [c] + u;
      assert (y + [c] + v)[0] == y[0] && (y + [c] + v)[1..] == y[1..] + [c] + v;
      assert (x + u)[0] == x[0] && (x + u)[1..] == x[1..] + u;
      assert (y + v)[0] == y[0] && (y + v)[1..] == y[1..] + v;
      LexLeSkip(x[1..], u, y[1..], v, c);
    }
  }

  /** A well-formed `YYYY-MM-DD` string. */
  predicate Iso(s: string)
  {
    |s| == 10 && s[4] == '-' && s[7] == '-' && Digitos(s[..4]) && Digitos(s[5..7]) && Digitos(s[8..])
  }

  /** The eight digits of an ISO date with the dashes dropped: `YYYYMMDD`. */
  function SinGuiones(s: string): (r: string)
    requires Iso(s)
    ensures Digitos(r) && |r| == 8
  {
    s[..4] + s[5..7] + s[8..]
  }

  /** The day an ISO date names, as the number `YYYYMMDD`, which grows with time. */
  function Dia(s: string): nat
    requires Iso(s)
  {
    Numero(SinGuiones(s))
  }

  /** The dashes of two ISO dates sit at the same places, so they do not decide the order. */
  lemma SinGuionesLex(a: string, b: string)
    requires Iso(a) && Iso(b)
    ensures LexLe(a, b) <==> LexLe(SinGuiones(a), SinGuiones(b))
  {
    assert a == a[..4] + [a[4]] + a[5..] && b == b[..4] + [b[4]] + b[5..];
    LexLeSkip(a[..4], a[5..], b[..4], b[5..], '-');
    var ra, rb := a[..4] + a[5..7], b[..4] + b[5..7];
    assert a[..4] + a[5..] == ra + [a[7]] + a[8..];
    assert b[..4] + b[5..] == rb + [b[7]] + b[8..];
    LexLeSkip(ra, a[8..], rb, b[8..], '-');
  }

  /** For well-formed ISO dates, the string order is the order in time. */
  lemma FechaCronologica(a: string, b: string)
    requires Iso(a) && Iso(b)
    ensures LexLe(a, b) <==> Dia(a) <= Dia(b)
  {
    SinGuionesLex(a, b);
    NumeroLex(SinGuiones(a), SinGuiones(b));
  }
}
