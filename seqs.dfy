/** Swift's `compactMap`: map every element to an optional and keep the
    values, in order. */
module Seqs {
  import opened Wrappers

  function FilterMap<A, B>(s: seq<A>, f: A -> Option<B>): seq<B> {
    if s == [] then []
    else
      var rest := FilterMap(s[1..], f);
      match f(s[0])
      case Some(y) => [y] + rest
      case None => rest
  }

  /** The result is no longer than the input, is empty when nothing maps to
      a value, keeps everything when everything does, and holds only values
      that some element maps to. */
  lemma {:induction false} FilterMapKeepsOnlyValues<A, B>(s: seq<A>, f: A -> Option<B>)
    ensures |FilterMap(s, f)| <= |s|
    ensures (forall i :: 0 <= i < |s| ==> f(s[i]).None?) ==> FilterMap(s, f) == []
    ensures (forall i :: 0 <= i < |s| ==> f(s[i]).Some?) ==> |FilterMap(s, f)| == |s|
    ensures forall y :: y in FilterMap(s, f) ==> exists i :: 0 <= i < |s| && f(s[i]) == Some(y)
  {
    if s != [] {
      FilterMapKeepsOnlyValues(s[1..], f);
      assert forall i :: 1 <= i < |s| ==> s[i] == s[1..][i - 1];
    }
  }

  /** One step of `FilterMap`: the first element's value, if any, then the rest. */
  lemma FilterMapCons<A, B>(s: seq<A>, f: A -> Option<B>)
    requires s != []
    ensures FilterMap(s, f) == (if f(s[0]).Some? then [f(s[0]).value] else []) + FilterMap(s[1..], f)
  {
  }

  /** `FilterMap` distributes over concatenation: the survivors of a prefix
      come before the survivors of the rest, so relative order is kept. */
  lemma {:induction false} FilterMapAppend<A, B>(a: seq<A>, b: seq<A>, f: A -> Option<B>)
    ensures FilterMap(a + b, f) == FilterMap(a, f) + FilterMap(b, f)
  {
    if a == [] {
      assert a + b == b;
    } else {
      assert (a + b)[1..] == a[1..] + b;
      FilterMapAppend(a[1..], b, f);
    }
  }

  /** A single element contributes its value, or nothing. */
  lemma FilterMapSingleton<A, B>(x: A, f: A -> Option<B>)
    ensures FilterMap([x], f) == if f(x).Some? then [f(x).value] else []
  {
    assert [x][1..] == [];
  }

  /** `FilterMap` depends only on what `f` returns. */
  lemma {:induction false} FilterMapExtensional<A, B>(s: seq<A>, f: A -> Option<B>, g: A -> Option<B>)
    requires forall i :: 0 <= i < |s| ==> f(s[i]) == g(s[i])
    ensures FilterMap(s, f) == FilterMap(s, g)
  {
    if s != [] {
      assert forall i :: 1 <= i < |s| ==> s[i] == s[1..][i - 1];
      FilterMapExtensional(s[1..], f, g);
    }
  }
}
