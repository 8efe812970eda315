/** Generic sequence operations behind Array.prototype.filter, .flat, and `new Set(...)`. */
module Seqs {

  /** `s.filter(f)`: the elements of `s` that satisfy `f`, in their original order. */
  function Filter<T>(s: seq<T>, f: T -> bool): (r: seq<T>)
    ensures |r| <= |s|
    ensures forall i :: 0 <= i < |r| ==> f(r[i])
  {
    if s == [] then [] else (if f(s[0]) then [s[0]] else []) + Filter(s[1..], f)
  }

  /** An element is kept exactly when it occurs in the input and satisfies the predicate. */
  lemma {:induction false} FilterMembership<T>(s: seq<T>, f: T -> bool, x: T)
    ensures x in Filter(s, f) <==> x in s && f(x)
  {
    if s != [] {
      FilterMembership(s[1..], f, x);
      assert s == [s[0]] + s[1..];
    }
  }

  /** Filtering distributes over concatenation, so the relative order of the kept elements is the input's. */
  lemma {:induction false} FilterConcat<T>(s: seq<T>, t: seq<T>, f: T -> bool)
    ensures Filter(s + t, f) == Filter(s, f) + Filter(t, f)
  {
    if s == [] {
      assert s + t == t;
    } else {
      assert (s + t)[0] == s[0];
      assert (s + t)[1..] == s[1..] + t;
      FilterConcat(s[1..], t, f);
    }
  }

  /** A filter whose predicate holds everywhere returns its input unchanged. */
  lemma {:induction false} FilterAll<T>(s: seq<T>, f: T -> bool)
    requires forall i :: 0 <= i < |s| ==> f(s[i])
    ensures Filter(s, f) == s
  {
    if s != [] {
      FilterAll(s[1..], f);
    }
  }

  /** Filtering keeps nothing when no element satisfies the predicate. */
  lemma {:induction false} FilterNone<T>(s: seq<T>, f: T -> bool)
    requires forall x :: x in s ==> !f(x)
    ensures Filter(s, f) == []
  {
    if s != [] {
      FilterNone(s[1..], f);
    }
  }

  /** `r` is obtained from `s` by deleting elements: its elements occur in `s` in the same order. */
  predicate Subsequence<T(==)>(r: seq<T>, s: seq<T>)
    decreases |s|
  {
    r == [] || (s != [] && if r[0] == s[0] then Subsequence(r[1..], s[1..]) else Subsequence(r, s[1..]))
  }

  /** A filter deletes elements and never reorders the ones it keeps. */
  lemma {:induction false} FilterSubsequence<T>(s: seq<T>, f: T -> bool)
    ensures Subsequence(Filter(s, f), s)
  {
    if s != [] {
      FilterSubsequence(s[1..], f);
      var t := Filter(s[1..], f);
      if f(s[0]) {
        assert Filter(s, f) == [s[0]] + t;
        assert ([s[0]] + t)[1..] == t;
      } else {
        assert Filter(s, f) == t;
        assert t != [] ==> f(t[0]);
      }
    }
  }

  /** A filter keeps every occurrence of a satisfying element and none of the others. */
  lemma {:induction false} FilterCount<T>(s: seq<T>, f: T -> bool, x: T)
    ensures multiset(Filter(s, f))[x] == if f(x) then multiset(s)[x] else 0
  {
    if s != [] {
      FilterCount(s[1..], f, x);
      assert s == [s[0]] + s[1..];
      assert multiset(s) == multiset([s[0]]) + multiset(s[1..]);
      var head := if f(s[0]) then [s[0]] else [];
      assert multiset(Filter(s, f)) == multiset(head) + multiset(Filter(s[1..], f));
    }
  }

  /** `ss.flat()`: the concatenation of the inner sequences, in order. */
  function Flatten<T>(ss: seq<seq<T>>): seq<T>
  {
    if ss == [] then [] else ss[0] + Flatten(ss[1..])
  }

  /** Flattening distributes over concatenation of the outer sequence. */
  lemma {:induction false} FlattenConcat<T>(ss: seq<seq<T>>, tt: seq<seq<T>>)
    ensures Flatten(ss + tt) == Flatten(ss) + Flatten(tt)
  {
    if ss == [] {
      assert ss + tt == tt;
    } else {
      assert (ss + tt)[0] == ss[0];
      assert (ss + tt)[1..] == ss[1..] + tt;
      FlattenConcat(ss[1..], tt);
    }
  }

  /** `n` copies of `x`. */
  function Repeat<T>(x: T, n: nat): (r: seq<T>)
    ensures |r| == n
    ensures forall i :: 0 <= i < n ==> r[i] == x
  {
    if n == 0 then [] else Repeat(x, n - 1) + [x]
  }

  /** Repetition splits additively: n copies followed by m copies are n + m copies. */
  lemma RepeatAdd<T>(x: T, n: nat, m: nat)
    ensures Repeat(x, n) + Repeat(x, m) == Repeat(x, n + m)
  {
    var l, r := Repeat(x, n) + Repeat(x, m), Repeat(x, n + m);
    assert |l| == |r|;
    forall i | 0 <= i < |l| ensures l[i] == r[i] {
      if i < n { assert l[i] == Repeat(x, n)[i]; } else { assert l[i] == Repeat(x, m)[i - n]; }
    }
  }

  /** No element occurs twice. */
  ghost predicate NoDuplicates<T>(s: seq<T>)
  {
    forall i, j :: 0 <= i < j < |s| ==> s[i] != s[j]
  }

  /** The position of the first occurrence of `x` in `s`. */
  function FirstIndex<T(==)>(s: seq<T>, x: T): (i: nat)
    requires x in s
    ensures i < |s| && s[i] == x && x !in s[..i]
  {
    if s[0] == x then 0 else
      assert x in s[1..] by { assert s == [s[0]] + s[1..]; }
      var j := FirstIndex(s[1..], x);
      assert s[..j + 1] == [s[0]] + s[1..][..j];
      j + 1
  }

  /** `Array.from(new Set(s))`: the elements of `s` with repeats removed, each at its first occurrence. */
  function Distinct<T(==)>(s: seq<T>): seq<T>
  {
    if s == [] then []
    else
      var d := Distinct(s[..|s| - 1]);
      if s[|s| - 1] in d then d else d + [s[|s| - 1]]
  }

  /** Distinct keeps exactly the elements of its input, each once, in first-occurrence order. */
  lemma {:induction false} DistinctSpec<T>(s: seq<T>)
    ensures forall x :: x in Distinct(s) <==> x in s
    ensures NoDuplicates(Distinct(s))
    ensures forall i, j :: 0 <= i < j < |Distinct(s)| ==>
      FirstIndex(s, Distinct(s)[i]) < FirstIndex(s, Distinct(s)[j])
  {
    if s != [] {
      var p := s[..|s| - 1];
      var x := s[|s| - 1];
      DistinctSpec(p);
      assert s == p + [x];
      var d := Distinct(p);
      forall y | y in p ensures FirstIndex(s, y) == FirstIndex(p, y) {
        FirstIndexPrefix(p, x, y);
      }
      if x !in d {
        assert x !in p;
        assert FirstIndex(s, x) == |p| by { FirstIndexLast(p, x); }
      }
    }
  }

  /** Appending an element does not move the first occurrence of an element already present. */
  lemma FirstIndexPrefix<T>(p: seq<T>, x: T, y: T)
    requires y in p
    ensures FirstIndex(p + [x], y) == FirstIndex(p, y)
  {
    var i := FirstIndex(p, y);
    assert (p + [x])[i] == y && (p + [x])[..i] == p[..i];
  }

  /** An element new to `p` first occurs at the end of `p + [x]`. */
  lemma FirstIndexLast<T>(p: seq<T>, x: T)
    requires x !in p
    ensures FirstIndex(p + [x], x) == |p|
  {
    assert (p + [x])[..|p|] == p;
  }

  /** A sequence without repeats is its own Distinct. */
  lemma {:induction false} DistinctOfNoDuplicates<T>(s: seq<T>)
    requires NoDuplicates(s)
    ensures Distinct(s) == s
  {
    if s != [] {
      var p := s[..|s| - 1];
      assert NoDuplicates(p);
      DistinctOfNoDuplicates(p);
      DistinctSpec(p);
      assert s[|s| - 1] !in p;
      assert s == p + [s[|s| - 1]];
    }
  }

  /** The state after feeding the elements of `ts`, in order, to `step`, starting from `s`. */
  function Run<S, T>(step: (S, T) -> S, s: S, ts: seq<T>): S
  {
    if ts == [] then s else step(Run(step, s, ts[..|ts| - 1]), ts[|ts| - 1])
  }

  /** What the steps of a run emit, each element seeing the state before it, concatenated in order. */
  function Emitted<S, T, U>(step: (S, T) -> S, emit: (S, T) -> seq<U>, s: S, ts: seq<T>): seq<U>
  {
    if ts == [] then [] else Emitted(step, emit, s, ts[..|ts| - 1]) + emit(Run(step, s, ts[..|ts| - 1]), ts[|ts| - 1])
  }

  /** A run over `a + c` is a run over `a` followed by a run over `c` from where the first left off. */
  lemma {:induction false} RunConcat<S, T>(step: (S, T) -> S, s: S, a: seq<T>, c: seq<T>)
    ensures Run(step, s, a + c) == Run(step, Run(step, s, a), c)
    decreases |c|
  {
    if c == [] {
      assert a + c == a;
    } else {
      var u := a + c;
      RunConcat(step, s, a, c[..|c| - 1]);
      assert u[..|u| - 1] == a + c[..|c| - 1] && u[|u| - 1] == c[|c| - 1];
    }
  }

  /** What a run over `a + c` emits is what the run over `a` emits, then what the rest emits. */
  lemma {:induction false} EmittedConcat<S, T, U>(step: (S, T) -> S, emit: (S, T) -> seq<U>, s: S, a: seq<T>, c: seq<T>)
    ensures Emitted(step, emit, s, a + c) == Emitted(step, emit, s, a) + Emitted(step, emit, Run(step, s, a), c)
    decreases |c|
  {
    if c == [] {
      assert a + c == a;
    } else {
      var u := a + c;
      EmittedConcat(step, emit, s, a, c[..|c| - 1]);
      RunConcat(step, s, a, c[..|c| - 1]);
      assert u[..|u| - 1] == a + c[..|c| - 1] && u[|u| - 1] == c[|c| - 1];
    }
  }

  /** The run over the first i + 1 elements is one more step after the run over the first i. */
  lemma RunSnoc<S, T>(step: (S, T) -> S, emit: (S, T) -> seq<T>, s: S, ts: seq<T>, i: nat)
    requires i < |ts|
    ensures Run(step, s, ts[..i + 1]) == step(Run(step, s, ts[..i]), ts[i])
    ensures Emitted(step, emit, s, ts[..i + 1]) == Emitted(step, emit, s, ts[..i]) + emit(Run(step, s, ts[..i]), ts[i])
  {
    assert ts[..i + 1][..i] == ts[..i];
  }
}
