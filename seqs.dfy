/**
 * The list operations the source performs through JavaScript's `Array`
 * methods and `Set`/`Map` insertion order: `filter`, `join`, de-duplication
 * in first-seen order, and the subsequence relation these preserve.
 */
module Seqs {

  /** `s.filter(p)`. */
  function Filter<T>(p: T -> bool, s: seq<T>): seq<T>
  {
    if s == [] then [] else if p(s[0]) then [s[0]] + Filter(p, s[1..]) else Filter(p, s[1..])
  }

  /** `a` is obtained from `b` by deleting elements (order is kept). */
  predicate IsSubsequence<T(==)>(a: seq<T>, b: seq<T>)
  {
    a == [] || (b != [] && ((a[0] == b[0] && IsSubsequence(a[1..], b[1..])) || IsSubsequence(a, b[1..])))
  }

  /** No element occurs twice. */
  predicate NoDup<T(==)>(s: seq<T>)
  {
    forall i, j :: 0 <= i < j < |s| ==> s[i] != s[j]
  }

  /** Index of the first occurrence of `x` in `s`. */
  function FirstIndex<T(==)>(s: seq<T>, x: T): (k: nat)
    requires x in s
    ensures k < |s| && s[k] == x && x !in s[..k]
  {
    if s[0] == x then 0 else 1 + FirstIndex(s[1..], x)
  }

  /** Appends `x` unless it is already present (`if (!a.includes(x)) a.push(x)`). */
  function AppendNew<T(==)>(s: seq<T>, x: T): seq<T>
  {
    if x in s then s else s + [x]
  }

  /**
   * The elements of `s` without repetitions, each at its first occurrence:
   * what `[...new Set(s)]` yields. Defined as the left fold of `AppendNew`,
   * which is how a `Set` is filled in insertion order.
   */
  function Distinct<T(==)>(s: seq<T>): seq<T>
  {
    if s == [] then [] else AppendNew(Distinct(s[..|s| - 1]), s[|s| - 1])
  }

  /** `xs.join(sep)`. */
  function Join(xs: seq<string>, sep: string): string
  {
    if |xs| == 0 then "" else if |xs| == 1 then xs[0] else xs[0] + sep + Join(xs[1..], sep)
  }

  /** The concatenation of all members of `xs`. */
  function Concat<T>(xs: seq<seq<T>>): seq<T>
  {
    if xs == [] then [] else xs[0] + Concat(xs[1..])
  }

  /** `s.slice(0, n)` as JavaScript defines it, for an integer `n`: a negative `n` counts from the end. */
  function SlicePrefix<T>(s: seq<T>, n: int): (r: seq<T>)
    ensures |r| <= |s| && r == s[..|r|]
    ensures n >= 0 ==> |r| == if n < |s| then n else |s|
    ensures n < 0 ==> |r| == if |s| + n > 0 then |s| + n else 0
  {
    var end := if n < 0 then (if |s| + n > 0 then |s| + n else 0) else (if n < |s| then n else |s|);
    s[..end]
  }

  // ---------------------------------------------------------------- Filter

  lemma {:induction false} FilterMembers<T>(p: T -> bool, s: seq<T>)
    ensures forall x :: x in Filter(p, s) ==> x in s && p(x)
    ensures forall x :: x in s && p(x) ==> x in Filter(p, s)
  {
    if s != [] {
      FilterMembers(p, s[1..]);
      assert s == [s[0]] + s[1..];
    }
  }

  /** `filter` keeps exactly the passing occurrences: every element's count is preserved or zeroed. */
  lemma {:induction false} FilterMultiset<T>(p: T -> bool, s: seq<T>)
    ensures forall x :: multiset(Filter(p, s))[x] == if p(x) then multiset(s)[x] else 0
  {
    if s != [] {
      FilterMultiset(p, s[1..]);
      assert s == [s[0]] + s[1..];
    }
  }

  lemma {:induction false} FilterIsSubsequence<T>(p: T -> bool, s: seq<T>)
    ensures IsSubsequence(Filter(p, s), s)
  {
    if s != [] {
      FilterIsSubsequence(p, s[1..]);
      if p(s[0]) {
        var r := Filter(p, s);
        assert r[0] == s[0] && r[1..] == Filter(p, s[1..]);
      }
    }
  }

  lemma {:induction false} SubsequenceTrans<T>(a: seq<T>, b: seq<T>, c: seq<T>)
    requires IsSubsequence(a, b) && IsSubsequence(b, c)
    ensures IsSubsequence(a, c)
    decreases |c|
  {
    if a != [] {
      if IsSubsequence(b, c[1..]) {
        SubsequenceTrans(a, b, c[1..]);
      } else if a[0] == b[0] && IsSubsequence(a[1..], b[1..]) {
        SubsequenceTrans(a[1..], b[1..], c[1..]);
      } else {
        SubsequenceTrans(a, b[1..], c[1..]);
      }
    }
  }

  lemma {:induction false} FilterLength<T>(p: T -> bool, s: seq<T>)
    ensures |Filter(p, s)| <= |s|
  {
    if s != [] { FilterLength(p, s[1..]); }
  }

  /** Filtering with `p` and then with `q` is filtering with both. */
  lemma {:induction false} FilterFilter<T>(p: T -> bool, q: T -> bool, s: seq<T>)
    ensures Filter(q, Filter(p, s)) == Filter(x => p(x) && q(x), s)
  {
    if s != [] {
      FilterFilter(p, q, s[1..]);
      if p(s[0]) {
        assert Filter(p, s) == [s[0]] + Filter(p, s[1..]);
      }
    }
  }

  /** Two filters commute. */
  lemma {:induction false} FilterCommute<T>(p: T -> bool, q: T -> bool, s: seq<T>)
    ensures Filter(q, Filter(p, s)) == Filter(p, Filter(q, s))
  {
    FilterFilter(p, q, s);
    FilterFilter(q, p, s);
    FilterExt(x => p(x) && q(x), x => q(x) && p(x), s);
  }

  /** Filters with the same verdict on every element of `s` agree on `s`. */
  lemma {:induction false} FilterExt<T>(p: T -> bool, q: T -> bool, s: seq<T>)
    requires forall i :: 0 <= i < |s| ==> p(s[i]) == q(s[i])
    ensures Filter(p, s) == Filter(q, s)
  {
    if s != [] { FilterExt(p, q, s[1..]); }
  }

  /** A filter whose predicate holds throughout leaves the list as it is. */
  lemma {:induction false} FilterAllPass<T>(p: T -> bool, s: seq<T>)
    requires forall i :: 0 <= i < |s| ==> p(s[i])
    ensures Filter(p, s) == s
  {
    if s != [] {
      FilterAllPass(p, s[1..]);
      assert s == [s[0]] + s[1..];
    }
  }

  /** Filtering twice with the same predicate is filtering once. */
  lemma {:induction false} FilterIdempotent<T>(p: T -> bool, s: seq<T>)
    ensures Filter(p, Filter(p, s)) == Filter(p, s)
  {
    var r := Filter(p, s);
    FilterMembers(p, s);
    forall i | 0 <= i < |r| ensures p(r[i]) {
      assert r[i] in Filter(p, s);
    }
    FilterAllPass(p, r);
  }

  lemma {:induction false} FilterAppend<T>(p: T -> bool, a: seq<T>, b: seq<T>)
    ensures Filter(p, a + b) == Filter(p, a) + Filter(p, b)
  {
    if a != [] {
      FilterAppend(p, a[1..], b);
      assert (a + b)[1..] == a[1..] + b;
    } else {
      assert a + b == b;
    }
  }

  // -------------------------------------------------------------- Distinct

  lemma {:induction false} DistinctMembers<T>(s: seq<T>)
    ensures forall x :: x in Distinct(s) ==> x in s
    ensures forall x :: x in s ==> x in Distinct(s)
  {
    if s != [] {
      DistinctMembers(s[..|s| - 1]);
      assert s == s[..|s| - 1] + [s[|s| - 1]];
    }
  }

  lemma {:induction false} DistinctNoDup<T>(s: seq<T>)
    ensures NoDup(Distinct(s))
  {
    if s != [] {
      DistinctNoDup(s[..|s| - 1]);
    }
  }

  lemma {:induction false} DistinctLength<T>(s: seq<T>)
    ensures |Distinct(s)| <= |s|
  {
    if s != [] {
      DistinctLength(s[..|s| - 1]);
    }
  }

  /** Earlier elements of `Distinct(s)` first occur earlier in `s`. */
  lemma {:induction false} DistinctFirstSeenOrder<T>(s: seq<T>)
    ensures forall i, j :: 0 <= i < j < |Distinct(s)| ==>
      Distinct(s)[i] in s && Distinct(s)[j] in s &&
      FirstIndex(s, Distinct(s)[i]) < FirstIndex(s, Distinct(s)[j])
  {
    if s != [] {
      var init, last := s[..|s| - 1], s[|s| - 1];
      DistinctFirstSeenOrder(init);
      DistinctMembers(init);
      var d, r := Distinct(init), Distinct(s);
      assert s == init + [last];
      assert r == if last in d then d else d + [last];
      forall i, j | 0 <= i < j < |r|
        ensures r[i] in s && r[j] in s && FirstIndex(s, r[i]) < FirstIndex(s, r[j])
      {
        assert i < |d| && r[i] == d[i];
        assert d[i] in d;
        FirstIndexPrefix(init, [last], d[i]);
        if j < |d| {
          assert d[j] in d;
          FirstIndexPrefix(init, [last], d[j]);
        } else {
          assert r == d + [last] && r[j] == last && last !in init;
          FirstIndexNew(init, last);
        }
      }
    } else {
      assert Distinct(s) == [];
    }
  }

  lemma {:induction false} FirstIndexPrefix<T>(a: seq<T>, b: seq<T>, x: T)
    requires x in a
    ensures x in a + b && FirstIndex(a + b, x) == FirstIndex(a, x)
  {
    var k := FirstIndex(a, x);
    assert (a + b)[k] == x;
    assert a[..k] == (a + b)[..k];
  }

  lemma {:induction false} FirstIndexNew<T>(a: seq<T>, x: T)
    requires x !in a
    ensures x in a + [x] && FirstIndex(a + [x], x) == |a|
  {
    assert (a + [x])[..|a|] == a;
  }

  /** A list without repetitions is its own `Distinct`. */
  lemma {:induction false} DistinctOfNoDup<T>(s: seq<T>)
    requires NoDup(s)
    ensures Distinct(s) == s
  {
    if s != [] {
      var init := s[..|s| - 1];
      DistinctOfNoDup(init);
      assert s == init + [s[|s| - 1]];
    }
  }

  lemma {:induction false} DistinctSnoc<T>(s: seq<T>, x: T)
    ensures Distinct(s + [x]) == AppendNew(Distinct(s), x)
  {
    assert (s + [x])[..|s + [x]| - 1] == s;
  }

  // ------------------------------------------------------------------ Join

  /** Where the block `xs[i]` starts in `Join(xs, sep)`. */
  function BlockOffset(xs: seq<string>, sep: string, i: nat): nat
    requires i <= |xs|
  {
    if i == 0 then 0 else BlockOffset(xs, sep, i - 1) + |xs[i - 1]| + |sep|
  }

  /** `Join` is exactly as long as its blocks with one separator between neighbours. */
  lemma {:induction false} JoinLength(xs: seq<string>, sep: string)
    requires xs != []
    ensures |Join(xs, sep)| + |sep| == BlockOffset(xs, sep, |xs|)
  {
    if |xs| > 1 {
      JoinLength(xs[1..], sep);
      OffsetShift(xs, sep, |xs| - 1);
    }
  }

  /** Block `i` of `xs` sits in `Join(xs, sep)` at `BlockOffset(xs, sep, i)`. */
  lemma {:induction false} JoinBlockAt(xs: seq<string>, sep: string, i: nat)
    requires i < |xs|
    ensures BlockOffset(xs, sep, i) + |xs[i]| <= |Join(xs, sep)|
    ensures Join(xs, sep)[BlockOffset(xs, sep, i)..BlockOffset(xs, sep, i) + |xs[i]|] == xs[i]
  {
    if |xs| == 1 {
      assert Join(xs, sep) == xs[0];
    } else if i == 0 {
      JoinCons(xs, sep);
      SliceOfPrefix(xs[0], sep + Join(xs[1..], sep), |xs[0]|);
      assert Join(xs, sep) == xs[0] + (sep + Join(xs[1..], sep));
    } else {
      JoinBlockAt(xs[1..], sep, i - 1);
      JoinBlockShift(xs, sep, i);
    }
  }

  /** The step of `JoinBlockAt`: block `i` of `xs` is block `i - 1` of its tail, moved past the head and a separator. */
  lemma JoinBlockShift(xs: seq<string>, sep: string, i: nat)
    requires 2 <= |xs| && 1 <= i < |xs|
    requires var t := xs[1..]; BlockOffset(t, sep, i - 1) + |t[i - 1]| <= |Join(t, sep)|
    requires var t := xs[1..]; Join(t, sep)[BlockOffset(t, sep, i - 1)..BlockOffset(t, sep, i - 1) + |t[i - 1]|] == t[i - 1]
    ensures BlockOffset(xs, sep, i) + |xs[i]| <= |Join(xs, sep)|
    ensures Join(xs, sep)[BlockOffset(xs, sep, i)..BlockOffset(xs, sep, i) + |xs[i]|] == xs[i]
  {
    var p, tail := xs[0] + sep, xs[1..];
    var rest := Join(tail, sep);
    JoinCons(xs, sep);
    OffsetShift(xs, sep, i - 1);
    var o := BlockOffset(tail, sep, i - 1);
    assert tail[i - 1] == xs[i] && BlockOffset(xs, sep, i) == |p| + o;
    SliceAfterPrefix(p, rest, o, o + |xs[i]|);
  }

  /** `Join` of two or more blocks: the first block, the separator, then the rest joined. */
  lemma JoinCons(xs: seq<string>, sep: string)
    requires |xs| >= 2
    ensures Join(xs, sep) == (xs[0] + sep) + Join(xs[1..], sep)
  {
  }

  /** A slice of `p + q` lying past `p` is the corresponding slice of `q`. */
  lemma SliceAfterPrefix<T>(p: seq<T>, q: seq<T>, a: nat, b: nat)
    requires a <= b <= |q|
    ensures (p + q)[|p| + a..|p| + b] == q[a..b]
  {
  }

  /** The first `n` elements of `p + q`, for `n` up to `|p|`, are those of `p`. */
  lemma SliceOfPrefix<T>(p: seq<T>, q: seq<T>, n: nat)
    requires n <= |p|
    ensures (p + q)[0..n] == p[0..n]
  {
  }

  /** Between block `i` and block `i + 1` of `Join(xs, sep)` stands exactly `sep`. */
  lemma {:induction false} JoinSeparatorAt(xs: seq<string>, sep: string, i: nat)
    requires i + 1 < |xs|
    ensures BlockOffset(xs, sep, i) + |xs[i]| <= BlockOffset(xs, sep, i + 1) <= |Join(xs, sep)|
    ensures Join(xs, sep)[BlockOffset(xs, sep, i) + |xs[i]|..BlockOffset(xs, sep, i + 1)] == sep
  {
    if i == 0 {
      var p := xs[0] + sep;
      JoinCons(xs, sep);
      JoinLength(xs[1..], sep);
      assert BlockOffset(xs, sep, 1) == |p|;
      SliceOfPrefix(p, Join(xs[1..], sep), |p|);
      SliceAfterPrefix(xs[0], sep, 0, |sep|);
      assert p[|xs[0]|..|p|] == sep;
    } else {
      JoinSeparatorAt(xs[1..], sep, i - 1);
      JoinSeparatorShift(xs, sep, i);
    }
  }

  /** `JoinSeparatorAt`, with the separator located by its start right after block `i`. */
  lemma SeparatorAfterBlock(xs: seq<string>, sep: string, i: nat)
    requires i + 1 < |xs|
    ensures var o := BlockOffset(xs, sep, i) + |xs[i]|;
      o + |sep| <= |Join(xs, sep)| && Join(xs, sep)[o..o + |sep|] == sep
  {
    JoinSeparatorAt(xs, sep, i);
    assert BlockOffset(xs, sep, i + 1) == BlockOffset(xs, sep, i) + |xs[i]| + |sep|;
  }

  /** The step of `JoinSeparatorAt`, as `JoinBlockShift` is for blocks. */
  lemma JoinSeparatorShift(xs: seq<string>, sep: string, i: nat)
    requires 1 <= i && i + 1 < |xs|
    requires var t := xs[1..];
      BlockOffset(t, sep, i - 1) + |t[i - 1]| <= BlockOffset(t, sep, i) <= |Join(t, sep)|
    requires var t := xs[1..];
      Join(t, sep)[BlockOffset(t, sep, i - 1) + |t[i - 1]|..BlockOffset(t, sep, i)] == sep
    ensures BlockOffset(xs, sep, i) + |xs[i]| <= BlockOffset(xs, sep, i + 1) <= |Join(xs, sep)|
    ensures Join(xs, sep)[BlockOffset(xs, sep, i) + |xs[i]|..BlockOffset(xs, sep, i + 1)] == sep
  {
    var p, tail := xs[0] + sep, xs[1..];
    var rest := Join(tail, sep);
    JoinCons(xs, sep);
    OffsetShift(xs, sep, i - 1);
    OffsetShift(xs, sep, i);
    var o, o' := BlockOffset(tail, sep, i - 1), BlockOffset(tail, sep, i);
    assert tail[i - 1] == xs[i];
    assert BlockOffset(xs, sep, i) == |p| + o && BlockOffset(xs, sep, i + 1) == |p| + o';
    SliceAfterPrefix(p, rest, o + |xs[i]|, o');
  }

  lemma {:induction false} OffsetShift(xs: seq<string>, sep: string, i: nat)
    requires 1 <= |xs| && i <= |xs| - 1
    ensures BlockOffset(xs, sep, i + 1) == |xs[0]| + |sep| + BlockOffset(xs[1..], sep, i)
  {
    if i > 0 {
      OffsetShift(xs, sep, i - 1);
    }
  }

  /** Joining is empty only when there is nothing to join or the one block is empty. */
  lemma {:induction false} JoinEmpty(xs: seq<string>, sep: string)
    requires forall i :: 0 <= i < |xs| ==> xs[i] != ""
    ensures Join(xs, sep) == "" <==> xs == []
  {
    if |xs| >= 2 {
      assert |Join(xs, sep)| >= |xs[0]|;
    }
  }

  // ---------------------------------------------------------------- Concat

  lemma {:induction false} ConcatAppend<T>(xs: seq<seq<T>>, ys: seq<seq<T>>)
    ensures Concat(xs + ys) == Concat(xs) + Concat(ys)
  {
    if xs != [] {
      ConcatAppend(xs[1..], ys);
      assert (xs + ys)[1..] == xs[1..] + ys;
    } else {
      assert xs + ys == ys;
    }
  }

  // ---------------------------------------------------------------- FlatMap

  /** `xs.flatMap(f)`, written as the left fold a loop that appends performs. */
  function FlatMap<T, U>(f: T -> seq<U>, xs: seq<T>): seq<U>
  {
    if xs == [] then [] else FlatMap(f, xs[..|xs| - 1]) + f(xs[|xs| - 1])
  }

  lemma {:induction false} FlatMapAppend<T, U>(f: T -> seq<U>, xs: seq<T>, ys: seq<T>)
    ensures FlatMap(f, xs + ys) == FlatMap(f, xs) + FlatMap(f, ys)
    decreases |ys|
  {
    if ys == [] {
      assert xs + ys == xs;
    } else {
      var init := ys[..|ys| - 1];
      assert (xs + ys)[..|xs + ys| - 1] == xs + init;
      assert (xs + ys)[|xs + ys| - 1] == ys[|ys| - 1];
      FlatMapAppend(f, xs, init);
    }
  }

  /** One more turn of a loop that appends `f(xs[j])`. */
  lemma {:induction false} FlatMapSnoc<T, U>(f: T -> seq<U>, xs: seq<T>, j: nat)
    requires j < |xs|
    ensures FlatMap(f, xs[..j + 1]) == FlatMap(f, xs[..j]) + f(xs[j])
  {
    assert xs[..j + 1][..j] == xs[..j];
  }

  lemma {:induction false} FlatMapMembers<T, U>(f: T -> seq<U>, xs: seq<T>)
    ensures forall y :: y in FlatMap(f, xs) ==> exists x :: x in xs && y in f(x)
  {
    if xs != [] {
      var init := xs[..|xs| - 1];
      FlatMapMembers(f, init);
      forall y | y in FlatMap(f, xs) ensures exists x :: x in xs && y in f(x) {
        if y in FlatMap(f, init) {
          var x :| x in init && y in f(x);
          assert x in xs;
        } else {
          assert xs[|xs| - 1] in xs;
        }
      }
    }
  }

  lemma AppendAssoc<T>(a: seq<T>, b: seq<T>, c: seq<T>)
    ensures (a + b) + c == a + (b + c)
  {
  }
}
