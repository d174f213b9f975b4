/** Sequence operations from Swift's standard library that the app relies on. */
module Collections {
  import opened Wrappers

  /** Swift's `compactMap`: apply `f` to every element and keep the non-nil results, in order. */
  function CompactMap<A, B>(s: seq<A>, f: A -> Option<B>): (r: seq<B>)
    ensures |r| <= |s|
    ensures forall y :: y in r ==> exists x :: x in s && f(x) == Some(y)
  {
    if s == [] then []
    else
      var rest := CompactMap(s[1..], f);
      match f(s[0])
      case Some(y) => [y] + rest
      case None => rest
  }

  /** compactMap distributes over concatenation: the kept results keep the order of their inputs. */
  lemma {:induction false} CompactMapAppend<A, B>(s1: seq<A>, s2: seq<A>, f: A -> Option<B>)
    ensures CompactMap(s1 + s2, f) == CompactMap(s1, f) + CompactMap(s2, f)
  {
    if s1 == [] {
      assert s1 + s2 == s2;
    } else {
      assert (s1 + s2)[0] == s1[0];
      assert (s1 + s2)[1..] == s1[1..] + s2;
      CompactMapAppend(s1[1..], s2, f);
    }
  }

  /** An element for which `f` gives nil is skipped, and its neighbours close up around it. */
  lemma CompactMapSkips<A, B>(s1: seq<A>, x: A, s2: seq<A>, f: A -> Option<B>)
    requires f(x).None?
    ensures CompactMap(s1 + [x] + s2, f) == CompactMap(s1, f) + CompactMap(s2, f)
  {
    CompactMapAppend(s1 + [x], s2, f);
    CompactMapAppend(s1, [x], f);
    assert CompactMap([x], f) == CompactMap([x][1..], f);
    assert [x][1..] == [];
  }

  /** When no element is dropped, compactMap is an element-wise map. */
  lemma {:induction false} CompactMapAllPresent<A, B>(s: seq<A>, f: A -> Option<B>)
    requires forall i :: 0 <= i < |s| ==> f(s[i]).Some?
    ensures |CompactMap(s, f)| == |s|
    ensures forall i :: 0 <= i < |s| ==> CompactMap(s, f)[i] == f(s[i]).value
  {
    if s != [] {
      CompactMapAllPresent(s[1..], f);
    }
  }

  /** Every non-nil result is kept. */
  lemma {:induction false} CompactMapKeeps<A, B>(s: seq<A>, f: A -> Option<B>)
    ensures forall x :: x in s && f(x).Some? ==> f(x).value in CompactMap(s, f)
  {
    if s != [] {
      CompactMapKeeps(s[1..], f);
      assert forall x :: x in s ==> x == s[0] || x in s[1..];
    }
  }

  /** Elements for which `f` gives nil contribute nothing. */
  lemma {:induction false} CompactMapAllAbsent<A, B>(s: seq<A>, f: A -> Option<B>)
    requires forall i :: 0 <= i < |s| ==> f(s[i]).None?
    ensures CompactMap(s, f) == []
  {
    if s != [] {
      CompactMapAllAbsent(s[1..], f);
    }
  }

  /**
   * A decoder of a whole array (`decode([T].self, ...)`): all elements must decode, or the
   * whole array fails.
   */
  function MapAll<A, B>(s: seq<A>, f: A -> Option<B>): (r: Option<seq<B>>)
    ensures r.Some? <==> forall i :: 0 <= i < |s| ==> f(s[i]).Some?
    ensures r.Some? ==> |r.value| == |s| && forall i :: 0 <= i < |s| ==> r.value[i] == f(s[i]).value
  {
    if s == [] then Some([])
    else
      match f(s[0])
      case None => None
      case Some(y) =>
        match MapAll(s[1..], f)
        case None => None
        case Some(ys) => Some([y] + ys)
  }

  /** Where no element fails, the skipping decoder and the all-or-nothing decoder agree. */
  lemma CompactMapAgreesWithMapAll<A, B>(s: seq<A>, f: A -> Option<B>)
    requires MapAll(s, f).Some?
    ensures CompactMap(s, f) == MapAll(s, f).value
  {
    CompactMapAllPresent(s, f);
  }

  /** A subset is no larger than its superset. */
  lemma {:induction false} SubsetCardinality<T>(a: set<T>, b: set<T>)
    requires a <= b
    ensures |a| <= |b|
  {
    if a != {} {
      var x :| x in a;
      SubsetCardinality(a - {x}, b - {x});
    }
  }

  ghost predicate SortedBy<T>(s: seq<T>, key: T -> int) {
    forall i, j :: 0 <= i < j < |s| ==> key(s[i]) <= key(s[j])
  }

  /** Insert `x` into a sequence already ordered by ascending `key`. */
  function InsertBy<T>(x: T, s: seq<T>, key: T -> int): (r: seq<T>)
    requires SortedBy(s, key)
    ensures SortedBy(r, key)
    ensures multiset(r) == multiset(s) + multiset{x}
    ensures |r| == |s| + 1
    ensures key(r[0]) == key(x) || (s != [] && key(r[0]) == key(s[0]))
  {
    if s == [] || key(x) <= key(s[0]) then [x] + s
    else
      assert s == [s[0]] + s[1..];
      [s[0]] + InsertBy(x, s[1..], key)
  }

  /** Swift's `sorted(by: { key($0) < key($1) })`: a reordering of `s` by ascending key. */
  function SortBy<T>(s: seq<T>, key: T -> int): (r: seq<T>)
    ensures SortedBy(r, key)
    ensures multiset(r) == multiset(s)
    ensures |r| == |s|
  {
    if s == [] then []
    else
      assert s == [s[0]] + s[1..];
      InsertBy(s[0], SortBy(s[1..], key), key)
  }

  /** Swift's `filter`. */
  function Filter<T>(s: seq<T>, p: T -> bool): (r: seq<T>)
    ensures forall x :: x in r ==> p(x) && x in s
    ensures forall x :: x in s && p(x) ==> x in r
    ensures multiset(r) <= multiset(s)
  {
    if s == [] then []
    else
      assert s == [s[0]] + s[1..];
      if p(s[0]) then [s[0]] + Filter(s[1..], p) else Filter(s[1..], p)
  }

  /** Filtering keeps every occurrence of a passing element and none of a failing one. */
  lemma {:induction false} FilterCounts<T>(s: seq<T>, p: T -> bool, x: T)
    ensures multiset(Filter(s, p))[x] == if p(x) then multiset(s)[x] else 0
  {
    if s != [] {
      FilterCounts(s[1..], p, x);
      assert s == [s[0]] + s[1..];
    }
  }

  /** Filtering keeps the order of the input: a further element is appended exactly when it passes. */
  lemma {:induction false} FilterSnoc<T>(s: seq<T>, x: T, p: T -> bool)
    ensures Filter(s + [x], p) == Filter(s, p) + (if p(x) then [x] else [])
  {
    if s == [] {
      assert [x][1..] == [];
    } else {
      var t := s + [x];
      assert t[0] == s[0] && t[1..] == s[1..] + [x];
      var head := if p(s[0]) then [s[0]] else [];
      assert Filter(t, p) == head + Filter(s[1..] + [x], p);
      assert Filter(s, p) == head + Filter(s[1..], p);
      FilterSnoc(s[1..], x, p);
      var last := if p(x) then [x] else [];
      assert head + (Filter(s[1..], p) + last) == (head + Filter(s[1..], p)) + last;
    }
  }

  /** The elements of `s` each kept once, in the order of first occurrence (`Array(Set(s))` up to order). */
  function Dedup<T(==)>(s: seq<T>): (r: seq<T>)
    ensures (set x | x in r) == (set x | x in s)
    ensures forall i, j :: 0 <= i < j < |r| ==> r[i] != r[j]
  {
    if s == [] then []
    else
      var init := s[..|s| - 1];
      var rest := Dedup(init);
      assert s == init + [s[|s| - 1]];
      assert (set x | x in s) == (set x | x in init) + {s[|s| - 1]};
      if s[|s| - 1] in rest then rest else rest + [s[|s| - 1]]
  }
}
