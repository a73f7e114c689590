/** Sequence operations shared by the adapters: a filtering map (a loop that
    pushes only some items) and JavaScript's `slice(0, end)`. */
module Seqs {
  import opened JsValues

  /** Keep `f(x)` for every `x` that `f` maps to `Some`, in input order.  It
      is stated from the back, so that it follows a loop that pushes. */
  function FilterMap<T, U>(f: T -> Option<U>, s: seq<T>): (r: seq<U>)
    ensures |r| <= |s|
    decreases |s|
  {
    if s == [] then []
    else FilterMap(f, s[..|s| - 1]) + (match f(s[|s| - 1]) case Some(u) => [u] case None => [])
  }

  /** The filtering map of a concatenation is the concatenation of the
      filtering maps: kept items keep their relative order. */
  lemma {:induction false} FilterMapAppend<T, U>(f: T -> Option<U>, a: seq<T>, b: seq<T>)
    ensures FilterMap(f, a + b) == FilterMap(f, a) + FilterMap(f, b)
    decreases |b|
  {
    if b == [] {
      assert a + b == a;
    } else {
      var b' := b[..|b| - 1];
      FilterMapAppend(f, a, b');
      assert (a + b)[..|a + b| - 1] == a + b';
      assert (a + b)[|a + b| - 1] == b[|b| - 1];
    }
  }

  /** An item mapped to `None` contributes nothing: it is dropped, and the
      rest of the output is unchanged. */
  lemma DroppedItem<T, U>(f: T -> Option<U>, a: seq<T>, x: T, b: seq<T>)
    requires f(x).None?
    ensures FilterMap(f, a + [x] + b) == FilterMap(f, a + b)
  {
    FilterMapAppend(f, a + [x], b);
    FilterMapAppend(f, a, [x]);
    FilterMapAppend(f, a, b);
    assert FilterMap(f, [x]) == [] by {
      assert [x][..0] == [];
    }
  }

  /** Every output element comes from some input item that `f` keeps. */
  lemma {:induction false} FilterMapOrigin<T, U>(f: T -> Option<U>, s: seq<T>, k: nat)
    requires k < |FilterMap(f, s)|
    ensures exists j :: 0 <= j < |s| && f(s[j]) == Some(FilterMap(f, s)[k])
    decreases |s|
  {
    var p := s[..|s| - 1];
    if k < |FilterMap(f, p)| {
      FilterMapOrigin(f, p, k);
      var j :| 0 <= j < |p| && f(p[j]) == Some(FilterMap(f, p)[k]);
      assert s[j] == p[j];
    } else {
      assert f(s[|s| - 1]) == Some(FilterMap(f, s)[k]);
    }
  }

  /** When `f` keeps every item, nothing is dropped. */
  lemma {:induction false} FilterMapKeepsAll<T, U>(f: T -> Option<U>, s: seq<T>)
    requires forall j :: 0 <= j < |s| ==> f(s[j]).Some?
    ensures |FilterMap(f, s)| == |s|
    ensures forall j :: 0 <= j < |s| ==> FilterMap(f, s)[j] == f(s[j]).value
    decreases |s|
  {
    if s != [] {
      var p := s[..|s| - 1];
      FilterMapKeepsAll(f, p);
    }
  }

  /** When `f` keeps no item, the output is empty. */
  lemma {:induction false} FilterMapDropsAll<T, U>(f: T -> Option<U>, s: seq<T>)
    requires forall j :: 0 <= j < |s| ==> f(s[j]).None?
    ensures FilterMap(f, s) == []
    decreases |s|
  {
    if s != [] {
      FilterMapDropsAll(f, s[..|s| - 1]);
    }
  }

  /** `f` applied to every item, in order; stated from the back like
      `FilterMap`. */
  function MapEach<T, U>(f: T -> U, s: seq<T>): (r: seq<U>)
    ensures |r| == |s|
    ensures forall i :: 0 <= i < |s| ==> r[i] == f(s[i])
    decreases |s|
  {
    if s == [] then [] else MapEach(f, s[..|s| - 1]) + [f(s[|s| - 1])]
  }

  /** Mapping a concatenation maps each half: order is preserved. */
  lemma MapEachAppend<T, U>(f: T -> U, a: seq<T>, b: seq<T>)
    ensures MapEach(f, a + b) == MapEach(f, a) + MapEach(f, b)
  {
    assert forall i :: 0 <= i < |b| ==> (a + b)[|a| + i] == b[i];
  }

  /** A loop that walks `s` once and pushes `f(x)` for every `x`. */
  method PushEach<T, U>(f: T -> U, s: seq<T>) returns (r: seq<U>)
    ensures r == MapEach(f, s)
  {
    r := [];
    for i := 0 to |s|
      invariant r == MapEach(f, s[..i])
    {
      r := r + [f(s[i])];
      assert s[..i + 1][..i] == s[..i];
    }
    assert s[..|s|] == s;
  }

  /** A loop that walks `s` once and pushes `f(x)` whenever it is `Some`:
      it collects exactly the filtering map. */
  method PushKept<T, U>(f: T -> Option<U>, s: seq<T>) returns (r: seq<U>)
    ensures r == FilterMap(f, s)
  {
    r := [];
    for i := 0 to |s|
      invariant r == FilterMap(f, s[..i])
    {
      match f(s[i]) {
        case Some(u) => r := r + [u];
        case None =>
      }
      assert s[..i + 1][..i] == s[..i];
    }
    assert s[..|s|] == s;
  }

  /** Where `s.slice(0, end)` stops: a negative `end` counts from the back,
      and `end` is clamped to the length. */
  function SliceEnd(len: nat, end: int): (k: nat)
    ensures k <= len
  {
    if end < 0 then (if len + end < 0 then 0 else len + end)
    else if end < len then end else len
  }

  /** `s.slice(0, end)`: a prefix of `s`; all of it when `end` reaches the
      length; `end` elements for an `end` inside it; the last `-end`
      elements dropped for a negative `end`, and nothing left when they are
      all dropped. */
  function SliceTo<T>(s: seq<T>, end: int): (r: seq<T>)
    ensures |r| <= |s| && r == s[..|r|]
    ensures end >= |s| ==> r == s
    ensures 0 <= end <= |s| ==> |r| == end
    ensures -|s| <= end < 0 ==> |r| == |s| + end
    ensures end < -|s| ==> r == []
  {
    s[..SliceEnd(|s|, end)]
  }
}
