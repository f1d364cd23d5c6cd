/**
 * The array operations the pages build their state updates and views from:
 * `Array.prototype.filter` and a stable `Array.prototype.sort` with a
 * comparator.
 */
module Lists {

  /** `r` is `s` with some elements dropped and the rest kept in order. */
  ghost predicate IsSubsequence<T>(r: seq<T>, s: seq<T>)
    decreases |s|
  {
    r == [] || (s != [] && ((r[0] == s[0] && IsSubsequence(r[1..], s[1..])) || IsSubsequence(r, s[1..])))
  }

  /**
   * `s.filter(keep)`: the order-preserving sublist holding every element
   * that satisfies `keep`, as many times as it occurs in `s`, and nothing else.
   */
  function Filter<T(!new)>(s: seq<T>, keep: T -> bool): (r: seq<T>)
    ensures IsSubsequence(r, s)
    ensures forall x :: multiset(r)[x] == if keep(x) then multiset(s)[x] else 0
    ensures forall x :: x in r <==> x in s && keep(x)
  {
    if s == [] then []
    else
      assert s == [s[0]] + s[1..];
      if keep(s[0]) then [s[0]] + Filter(s[1..], keep) else Filter(s[1..], keep)
  }

  /** A filter that keeps every element returns its input unchanged. */
  lemma {:induction false} FilterKeepsAll<T(!new)>(s: seq<T>, keep: T -> bool)
    ensures (forall x :: x in s ==> keep(x)) ==> Filter(s, keep) == s
  {
    if s != [] && keep(s[0]) {
      FilterKeepsAll(s[1..], keep);
    }
  }

  /** `le(a, b)`: a comparator that lets `a` come before or with `b`. */
  ghost predicate TotalPreorder<T(!new)>(le: (T, T) -> bool) {
    && (forall a, b :: le(a, b) || le(b, a))
    && (forall a, b, c :: le(a, b) && le(b, c) ==> le(a, c))
  }

  ghost predicate SortedBy<T>(s: seq<T>, le: (T, T) -> bool) {
    forall i, j :: 0 <= i < j < |s| ==> le(s[i], s[j])
  }

  /**
   * Inserts `x` before the first element it may precede. Elements that tie
   * with `x` come after it, so inserting from the back of the input keeps
   * ties in their input order.
   */
  function Insert<T>(x: T, s: seq<T>, le: (T, T) -> bool): (r: seq<T>)
    ensures multiset(r) == multiset(s) + multiset{x}
  {
    if s == [] || le(x, s[0]) then [x] + s
    else
      assert s == [s[0]] + s[1..];
      [s[0]] + Insert(x, s[1..], le)
  }

  /** A stable sort of `s` by the comparator `le` (insertion sort). */
  function SortBy<T>(s: seq<T>, le: (T, T) -> bool): (r: seq<T>)
    ensures multiset(r) == multiset(s)
  {
    if s == [] then []
    else
      assert s == [s[0]] + s[1..];
      Insert(s[0], SortBy(s[1..], le), le)
  }

  lemma {:induction false} InsertSorted<T(!new)>(x: T, s: seq<T>, le: (T, T) -> bool)
    requires TotalPreorder(le) && SortedBy(s, le)
    ensures SortedBy(Insert(x, s, le), le)
  {
    if s == [] || le(x, s[0]) {
    } else {
      var tail := Insert(x, s[1..], le);
      InsertSorted(x, s[1..], le);
      forall k | 0 <= k < |tail| ensures le(s[0], tail[k]) {
        assert tail[k] in multiset(tail);
        if tail[k] != x {
          assert tail[k] in s[1..];
        }
      }
    }
  }

  lemma {:induction false} SortBySorted<T(!new)>(s: seq<T>, le: (T, T) -> bool)
    requires TotalPreorder(le)
    ensures SortedBy(SortBy(s, le), le)
  {
    if s != [] {
      SortBySorted(s[1..], le);
      InsertSorted(s[0], SortBy(s[1..], le), le);
    }
  }

  /** The elements the comparator cannot tell apart from `y`. */
  function Ties<T>(le: (T, T) -> bool, y: T): T -> bool {
    z => le(y, z) && le(z, y)
  }

  /** `r` keeps every group of mutually tied elements of `s` in its order in `s`. */
  ghost predicate StableBy<T(!new)>(r: seq<T>, s: seq<T>, le: (T, T) -> bool) {
    forall y :: Filter(r, Ties(le, y)) == Filter(s, Ties(le, y))
  }

  /** `x` goes in front of every element it ties with. */
  lemma {:induction false} InsertStable<T(!new)>(x: T, s: seq<T>, le: (T, T) -> bool, y: T)
    requires TotalPreorder(le)
    ensures Filter(Insert(x, s, le), Ties(le, y)) ==
      (if Ties(le, y)(x) then [x] else []) + Filter(s, Ties(le, y))
  {
    var p := Ties(le, y);
    if s == [] || le(x, s[0]) {
      assert ([x] + s)[1..] == s;
    } else {
      InsertStable(x, s[1..], le, y);
      assert ([s[0]] + Insert(x, s[1..], le))[1..] == Insert(x, s[1..], le);
      assert !(p(x) && p(s[0]));
    }
  }

  /** The insertion sort is stable: tied elements keep their input order. */
  lemma {:induction false} SortByStable<T(!new)>(s: seq<T>, le: (T, T) -> bool)
    requires TotalPreorder(le)
    ensures StableBy(SortBy(s, le), s, le)
  {
    if s != [] {
      SortByStable(s[1..], le);
      forall y ensures Filter(SortBy(s, le), Ties(le, y)) == Filter(s, Ties(le, y)) {
        InsertStable(s[0], SortBy(s[1..], le), le, y);
      }
    }
  }
}
