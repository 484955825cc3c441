/** Sequence helpers shared by the catalog and the audit model: filtering in
    order (a Python list comprehension with an `if`), subsequences and
    sums. */
module Secuencias {

  /** No element occurs twice. */
  predicate SinRepetidos<T(==)>(s: seq<T>) {
    forall i, j :: 0 <= i < j < |s| ==> s[i] != s[j]
  }

  /** `a` is obtained from `b` by deleting elements, keeping the order. */
  predicate EsSubsecuencia<T(==)>(a: seq<T>, b: seq<T>)
    decreases |b|
  {
    if b == [] then a == []
    else (a != [] && a[0] == b[0] && EsSubsecuencia(a[1..], b[1..])) || EsSubsecuencia(a, b[1..])
  }

  /** The elements of `s` that satisfy `f`, in their order in `s`:
      `[x for x in s if f(x)]`. */
  function Filtrar<T(==)>(s: seq<T>, f: T -> bool): (r: seq<T>)
    ensures |r| <= |s|
    ensures forall i :: 0 <= i < |r| ==> r[i] in s && f(r[i])
    ensures forall i :: 0 <= i < |s| && f(s[i]) ==> s[i] in r
    ensures EsSubsecuencia(r, s)
    ensures SinRepetidos(s) ==> SinRepetidos(r)
  {
    if s == [] then []
    else
      var resto := Filtrar(s[1..], f);
      if f(s[0]) then
        assert SinRepetidos(s) ==> s[0] !in s[1..];
        [s[0]] + resto
      else resto
  }

  /** Filtering by a condition every element meets keeps the sequence. */
  lemma {:induction false} FiltrarTodos<T>(s: seq<T>, f: T -> bool)
    ensures (forall i :: 0 <= i < |s| ==> f(s[i])) ==> Filtrar(s, f) == s
  {
    if s != [] && forall i :: 0 <= i < |s| ==> f(s[i]) {
      assert forall i :: 0 <= i < |s[1..]| ==> f(s[1..][i]) by {
        forall i | 0 <= i < |s[1..]| ensures f(s[1..][i]) { assert s[1..][i] == s[i + 1]; }
      }
      FiltrarTodos(s[1..], f);
      assert [s[0]] + s[1..] == s;
    }
  }

  /** Filtering depends only on the condition's answers on the elements. */
  lemma {:induction false} FiltrarExtensional<T>(s: seq<T>, f: T -> bool, g: T -> bool)
    requires forall i :: 0 <= i < |s| ==> f(s[i]) == g(s[i])
    ensures Filtrar(s, f) == Filtrar(s, g)
  {
    if s != [] {
      assert forall i :: 0 <= i < |s[1..]| ==> s[1..][i] == s[i + 1];
      FiltrarExtensional(s[1..], f, g);
    }
  }

  /** The concatenation of the sequences `f(x)` for the elements `x` of `s`,
      in order: a loop that extends a list by `f(x)` for each `x`. */
  function Aplanar<A, B>(s: seq<A>, f: A -> seq<B>): seq<B> {
    if s == [] then [] else Aplanar(s[..|s| - 1], f) + f(s[|s| - 1])
  }

  /** One more element appends its sequence at the end. */
  lemma AplanarPaso<A, B>(s: seq<A>, f: A -> seq<B>, i: nat)
    requires i < |s|
    ensures Aplanar(s[..i + 1], f) == Aplanar(s[..i], f) + f(s[i])
  {
    assert s[..i + 1][..i] == s[..i];
  }

  /** The result is empty exactly when every element contributes nothing. */
  lemma {:induction false} AplanarVacio<A, B>(s: seq<A>, f: A -> seq<B>)
    ensures Aplanar(s, f) == [] <==> forall i :: 0 <= i < |s| ==> f(s[i]) == []
  {
    if s != [] {
      var previos := s[..|s| - 1];
      AplanarVacio(previos, f);
      assert forall i :: 0 <= i < |previos| ==> previos[i] == s[i];
    }
  }

  /** When each element contributes at most one item, there are at most as
      many items as elements. */
  lemma {:induction false} AplanarAcotado<A, B>(s: seq<A>, f: A -> seq<B>)
    requires forall i :: 0 <= i < |s| ==> |f(s[i])| <= 1
    ensures |Aplanar(s, f)| <= |s|
  {
    if s != [] {
      var previos := s[..|s| - 1];
      assert forall i :: 0 <= i < |previos| ==> previos[i] == s[i];
      AplanarAcotado(previos, f);
    }
  }

  /** Every item of the result satisfies `p` when every item each element
      contributes does. */
  lemma {:induction false} AplanarTodos<A, B>(s: seq<A>, f: A -> seq<B>, p: B -> bool)
    requires forall x, j :: x in s && 0 <= j < |f(x)| ==> p(f(x)[j])
    ensures forall j :: 0 <= j < |Aplanar(s, f)| ==> p(Aplanar(s, f)[j])
  {
    if s != [] {
      var previos := s[..|s| - 1];
      var u := s[|s| - 1];
      assert forall x :: x in previos ==> x in s;
      AplanarTodos(previos, f, p);
      var r := Aplanar(s, f);
      forall j | 0 <= j < |r| ensures p(r[j]) {
        if j >= |Aplanar(previos, f)| {
          assert r[j] == f(u)[j - |Aplanar(previos, f)|];
        }
      }
    }
  }

  /** Index of the first occurrence of `x` in `s`. */
  function Posicion<T(==)>(s: seq<T>, x: T): (i: nat)
    requires x in s
    ensures i < |s| && s[i] == x
    ensures forall j :: 0 <= j < i ==> s[j] != x
  {
    if s[0] == x then 0 else 1 + Posicion(s[1..], x)
  }

  /** The elements of `s` other than `x`, in order. */
  function Quitar<T(==,!new)>(s: seq<T>, x: T): (r: seq<T>)
    ensures forall y :: y in r <==> y in s && y != x
    ensures SinRepetidos(s) ==> SinRepetidos(r)
    ensures x !in s ==> r == s
  {
    if s == [] then []
    else
      var resto := Quitar(s[1..], x);
      if s[0] == x then resto
      else
        assert SinRepetidos(s) ==> s[0] !in s[1..];
        [s[0]] + resto
  }

  /** A sequence without repetitions has as many distinct elements as it
      has elements. */
  lemma {:induction false} CardinalSinRepetidos<T>(s: seq<T>)
    requires SinRepetidos(s)
    ensures |set x | x in s| == |s|
  {
    if s != [] {
      var resto := s[1..];
      assert SinRepetidos(resto);
      CardinalSinRepetidos(resto);
      assert s[0] !in resto;
      assert (set x | x in s) == (set x | x in resto) + {s[0]};
    }
  }

  /** Sum of a sequence of reals, left to right: Python's `sum`. */
  function Suma(xs: seq<real>): real {
    if xs == [] then 0.0 else Suma(xs[..|xs| - 1]) + xs[|xs| - 1]
  }
}
