/** Text helpers: ASCII lower-casing (`str.lower` restricted to ASCII) and the
    substring test (`a in b` on strings). */
module Cadenas {

  /** Lower-case of one character: `A`..`Z` become `a`..`z`, every other
      character is left alone. */
  function Minuscula(c: char): (r: char)
    ensures !('A' <= r <= 'Z')
    ensures !('A' <= c <= 'Z') ==> r == c
  {
    if 'A' <= c <= 'Z' then (c as int + 32) as char else c
  }

  function Minusculas(s: string): (r: string)
    ensures |r| == |s|
    ensures forall i :: 0 <= i < |s| ==> r[i] == Minuscula(s[i])
  {
    seq(|s|, i requires 0 <= i < |s| => Minuscula(s[i]))
  }

  /** Lower-casing twice is lower-casing once. */
  lemma MinusculasIdempotente(s: string)
    ensures Minusculas(Minusculas(s)) == Minusculas(s)
  {
  }

  predicate EsPrefijo(p: string, s: string) {
    |p| <= |s| && s[..|p|] == p
  }

  /** `patron in texto`: the pattern occurs somewhere in the text (the empty
      pattern occurs in every text). */
  predicate Contiene(texto: string, patron: string)
    decreases |texto|
  {
    EsPrefijo(patron, texto) || (texto != [] && Contiene(texto[1..], patron))
  }

  /** The pattern occurs in the text at position `i`. */
  predicate ApareceEn(texto: string, patron: string, i: int) {
    0 <= i <= |texto| - |patron| && texto[i..i + |patron|] == patron
  }

  /** Contiene agrees with the definition by position: some slice of the
      text equals the pattern. */
  lemma {:induction false} ContieneSiiAparece(texto: string, patron: string)
    ensures Contiene(texto, patron) <==> exists i :: ApareceEn(texto, patron, i)
    decreases |texto|
  {
    if EsPrefijo(patron, texto) {
      assert ApareceEn(texto, patron, 0);
    }
    if texto != [] {
      ContieneSiiAparece(texto[1..], patron);
      if Contiene(texto[1..], patron) {
        var i :| ApareceEn(texto[1..], patron, i);
        assert texto[i + 1..i + 1 + |patron|] == texto[1..][i..i + |patron|];
        assert ApareceEn(texto, patron, i + 1);
      }
      if exists i :: ApareceEn(texto, patron, i) {
        var i :| ApareceEn(texto, patron, i);
        if i > 0 {
          assert texto[1..][i - 1..i - 1 + |patron|] == texto[i..i + |patron|];
          assert ApareceEn(texto[1..], patron, i - 1);
        } else {
          assert EsPrefijo(patron, texto);
        }
      }
    } else {
      if exists i :: ApareceEn(texto, patron, i) {
        var i :| ApareceEn(texto, patron, i);
        assert EsPrefijo(patron, texto);
      }
    }
  }

  /** The empty pattern occurs in every text. */
  lemma ContieneVacio(texto: string)
    ensures Contiene(texto, "")
  {
    assert EsPrefijo("", texto);
  }

  /** Python's `s.split(sep)`: the pieces between separators, one more than
      there are separators (`[""]` for the empty text). */
  function Partes(s: string, sep: char): (r: seq<string>)
    ensures |r| == Apariciones(s, sep) + 1
    ensures forall i :: 0 <= i < |r| ==> sep !in r[i]
  {
    if s == [] then [""]
    else
      var resto := Partes(s[1..], sep);
      if s[0] == sep then [""] + resto
      else [[s[0]] + resto[0]] + resto[1..]
  }

  /** Number of occurrences of `c` in `s`. */
  function Apariciones(s: string, c: char): nat {
    if s == [] then 0 else (if s[0] == c then 1 else 0) + Apariciones(s[1..], c)
  }

  /** The pieces joined back with the separator: `sep.join(partes)`. */
  function Unir(partes: seq<string>, sep: char): string
    requires |partes| >= 1
  {
    if |partes| == 1 then partes[0] else partes[0] + [sep] + Unir(partes[1..], sep)
  }

  /** Joining the pieces of a split gives the text back. */
  lemma {:induction false} UnirPartes(s: string, sep: char)
    ensures Unir(Partes(s, sep), sep) == s
  {
    if s != [] {
      UnirPartes(s[1..], sep);
      var resto := Partes(s[1..], sep);
      if s[0] != sep && |resto| > 1 {
        assert ([[s[0]] + resto[0]] + resto[1..])[1..] == resto[1..];
      }
    }
  }

  /** Splitting a text with no separator gives the text itself. */
  lemma {:induction false} PartesSinSeparador(s: string, sep: char)
    requires sep !in s
    ensures Partes(s, sep) == [s]
  {
    if s != [] {
      PartesSinSeparador(s[1..], sep);
      assert [s[0]] + s[1..] == s;
    }
  }

  /** Splitting `a + sep + b`, where neither piece holds the separator,
      gives exactly the two pieces. */
  lemma {:induction false} PartesDeDos(a: string, b: string, sep: char)
    requires sep !in a && sep !in b
    ensures Partes(a + [sep] + b, sep) == [a, b]
  {
    var s := a + [sep] + b;
    if a == [] {
      assert s[1..] == b;
      PartesSinSeparador(b, sep);
    } else {
      assert s[1..] == a[1..] + [sep] + b;
      PartesDeDos(a[1..], b, sep);
      assert [a[0]] + a[1..] == a;
    }
  }

  /** Occurrences add up over a concatenation. */
  lemma {:induction false} AparicionesConcatenar(a: string, b: string, c: char)
    ensures Apariciones(a + b, c) == Apariciones(a, c) + Apariciones(b, c)
  {
    if a != [] {
      assert (a + b)[0] == a[0] && (a + b)[1..] == a[1..] + b;
      AparicionesConcatenar(a[1..], b, c);
    } else {
      assert a + b == b;
    }
  }
}
