/** Left folds over a log of inputs or events, and the facts every run-level proof needs. */
module Folds {

  function Fold<S, E>(step: (S, E) -> S, s: S, es: seq<E>): S
    decreases |es|
  {
    if es == [] then s else Fold(step, step(s, es[0]), es[1..])
  }

  lemma {:induction false} FoldAppend<S, E>(step: (S, E) -> S, s: S, a: seq<E>, b: seq<E>)
    ensures Fold(step, s, a + b) == Fold(step, Fold(step, s, a), b)
    decreases |a|
  {
    if a == [] {
      assert a + b == b;
    } else {
      assert (a + b)[1..] == a[1..] + b;
      FoldAppend(step, step(s, a[0]), a[1..], b);
    }
  }

  lemma FoldOne<S, E>(step: (S, E) -> S, s: S, e: E)
    ensures Fold(step, s, [e]) == step(s, e)
  {
    assert [e][1..] == [];
  }

  lemma {:induction false} FoldLast<S, E>(step: (S, E) -> S, s: S, es: seq<E>)
    requires es != []
    ensures Fold(step, s, es) == step(Fold(step, s, es[..|es| - 1]), es[|es| - 1])
  {
    var n := |es| - 1;
    assert es == es[..n] + [es[n]];
    FoldAppend(step, s, es[..n], [es[n]]);
    FoldOne(step, Fold(step, s, es[..n]), es[n]);
  }

  lemma Assoc<T>(a: seq<T>, b: seq<T>, c: seq<T>)
    ensures (a + b) + c == a + (b + c)
  {
  }

  lemma Last<T>(a: seq<T>)
    requires a != []
    ensures a == a[..|a| - 1] + [a[|a| - 1]]
  {
  }

  /** Concatenation of a sequence of sequences, in order. */
  function Concat<T>(parts: seq<seq<T>>): seq<T>
    decreases |parts|
  {
    if parts == [] then [] else parts[0] + Concat(parts[1..])
  }

  lemma {:induction false} ConcatAppend<T>(a: seq<seq<T>>, b: seq<seq<T>>)
    ensures Concat(a + b) == Concat(a) + Concat(b)
    decreases |a|
  {
    if a == [] {
      assert a + b == b;
    } else {
      assert (a + b)[1..] == a[1..] + b;
      ConcatAppend(a[1..], b);
    }
  }

  lemma {:induction false} ConcatLast<T>(parts: seq<seq<T>>)
    requires parts != []
    ensures Concat(parts) == Concat(parts[..|parts| - 1]) + parts[|parts| - 1]
  {
    var n := |parts| - 1;
    assert parts == parts[..n] + [parts[n]];
    ConcatAppend(parts[..n], [parts[n]]);
    assert [parts[n]][1..] == [] && parts[n] + [] == parts[n];
  }

  /** The elements that satisfy a test, in order. */
  function Only<T>(test: T -> bool, es: seq<T>): seq<T>
    decreases |es|
  {
    if es == [] then [] else Only(test, es[..|es| - 1]) + if test(es[|es| - 1]) then [es[|es| - 1]] else []
  }

  lemma {:induction false} OnlyNext<T>(test: T -> bool, es: seq<T>, e: T)
    ensures Only(test, es + [e]) == Only(test, es) + if test(e) then [e] else []
  {
    assert (es + [e])[..|es|] == es;
  }

  lemma {:induction false} OnlyAppend<T>(test: T -> bool, a: seq<T>, b: seq<T>)
    ensures Only(test, a + b) == Only(test, a) + Only(test, b)
    decreases |b|
  {
    if b == [] {
      assert a + b == a && Only(test, a) + [] == Only(test, a);
    } else {
      var n := |b| - 1;
      Last(b);
      OnlyAppend(test, a, b[..n]);
      Assoc(a, b[..n], [b[n]]);
      OnlyNext(test, a + b[..n], b[n]);
      Assoc(Only(test, a), Only(test, b[..n]), if test(b[n]) then [b[n]] else []);
    }
  }

  lemma {:induction false} OnlyNone<T>(test: T -> bool, es: seq<T>)
    requires forall i :: 0 <= i < |es| ==> !test(es[i])
    ensures Only(test, es) == []
    decreases |es|
  {
    if es != [] {
      OnlyNone(test, es[..|es| - 1]);
    }
  }

  lemma OnlyOne<T>(test: T -> bool, e: T)
    ensures Only(test, [e]) == if test(e) then [e] else []
  {
    assert [e][..0] == [] && Only(test, []) == [];
  }
}
