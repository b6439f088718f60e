/**
 * Sequence operations the backend performs through JavaScript array methods:
 * `filter`, `filter(Boolean)`, spreading pages into one array, `slice(0, n)`,
 * `[...new Set(a)]` and `new Map(entries)`.
 */
module Seqs {
  import opened Wrappers

  /** `s.filter(f)`: the elements satisfying `f`, in their original order. */
  function Filter<T(!new)>(f: T -> bool, s: seq<T>): (r: seq<T>)
    ensures |r| <= |s|
    ensures forall x :: x in r <==> x in s && f(x)
  {
    if |s| == 0 then [] else (if f(s[0]) then [s[0]] else []) + Filter(f, s[1..])
  }

  /** Number of occurrences of `x` in `s`. */
  function Count<T(==)>(s: seq<T>, x: T): nat
  {
    if |s| == 0 then 0 else (if s[0] == x then 1 else 0) + Count(s[1..], x)
  }

  /** `a` is obtained from `b` by deleting elements (order is kept). */
  predicate IsSubseq<T(==)>(a: seq<T>, b: seq<T>)
  {
    if |a| == 0 then true
    else if |b| == 0 then false
    else if a[0] == b[0] then IsSubseq(a[1..], b[1..])
    else IsSubseq(a, b[1..])
  }

  /** No element occurs twice. */
  predicate Distinct<T(==)>(s: seq<T>)
  {
    forall i, j :: 0 <= i < j < |s| ==> s[i] != s[j]
  }

  /** Filtering distributes over concatenation. */
  lemma {:induction false} FilterAppend<T(!new)>(f: T -> bool, a: seq<T>, b: seq<T>)
    ensures Filter(f, a + b) == Filter(f, a) + Filter(f, b)
  {
    if |a| == 0 {
      assert a + b == b;
    } else {
      assert (a + b)[1..] == a[1..] + b;
      FilterAppend(f, a[1..], b);
    }
  }

  /** Filtering keeps every occurrence of a kept element and none of a dropped one. */
  lemma {:induction false} FilterCount<T(!new)>(f: T -> bool, s: seq<T>, x: T)
    ensures Count(Filter(f, s), x) == if f(x) then Count(s, x) else 0
  {
    if |s| > 0 {
      FilterCount(f, s[1..], x);
      var r := Filter(f, s[1..]);
      if f(s[0]) {
        assert Filter(f, s) == [s[0]] + r;
        assert ([s[0]] + r)[1..] == r;
      } else {
        assert Filter(f, s) == r;
      }
    }
  }

  /** Filtering keeps the relative order of the kept elements. */
  lemma {:induction false} FilterIsSubseq<T(!new)>(f: T -> bool, s: seq<T>)
    ensures IsSubseq(Filter(f, s), s)
  {
    if |s| > 0 {
      FilterIsSubseq(f, s[1..]);
      var r := Filter(f, s[1..]);
      if f(s[0]) {
        assert Filter(f, s) == [s[0]] + r;
        assert ([s[0]] + r)[1..] == r;
      } else {
        assert Filter(f, s) == r;
        SubseqDropHead(r, s);
      }
    }
  }

  /** A subsequence of the tail is a subsequence of the whole. */
  lemma {:induction false} SubseqDropHead<T>(a: seq<T>, b: seq<T>)
    requires |b| > 0 && IsSubseq(a, b[1..])
    ensures IsSubseq(a, b)
    decreases |b|, 1
  {
    if |a| > 0 && a[0] == b[0] {
      SubseqTail(a, b[1..]);
    }
  }

  lemma {:induction false} SubseqTail<T>(a: seq<T>, b: seq<T>)
    requires |a| > 0 && IsSubseq(a, b)
    ensures IsSubseq(a[1..], b)
    decreases |b| + 1, 0
  {
    if a[0] == b[0] {
      SubseqDropHead(a[1..], b);
    } else {
      SubseqTail(a, b[1..]);
      SubseqDropHead(a[1..], b);
    }
  }

  /** A filter that rejects nothing is the identity. */
  lemma {:induction false} FilterKeepsAll<T(!new)>(f: T -> bool, s: seq<T>)
    requires forall i :: 0 <= i < |s| ==> f(s[i])
    ensures Filter(f, s) == s
  {
    if |s| > 0 {
      FilterKeepsAll(f, s[1..]);
      assert [s[0]] + s[1..] == s;
    }
  }

  /** Filtering a sequence without repeats yields one without repeats. */
  lemma {:induction false} FilterDistinct<T(!new)>(f: T -> bool, s: seq<T>)
    requires Distinct(s)
    ensures Distinct(Filter(f, s))
  {
    if |s| > 0 {
      assert Distinct(s[1..]);
      FilterDistinct(f, s[1..]);
      assert s[0] !in s[1..];
    }
  }

  /** `s.filter(Boolean)` on a sequence of nullable values. */
  function Somes<T(!new)>(s: seq<Option<T>>): (r: seq<T>)
    ensures |r| <= |s|
    ensures forall x :: x in r <==> Some(x) in s
  {
    if |s| == 0 then []
    else (match s[0] case Some(v) => [v] case None => []) + Somes(s[1..])
  }

  lemma {:induction false} SomesAppend<T(!new)>(a: seq<Option<T>>, b: seq<Option<T>>)
    ensures Somes(a + b) == Somes(a) + Somes(b)
  {
    if |a| > 0 {
      assert (a + b)[1..] == a[1..] + b;
      SomesAppend(a[1..], b);
    } else {
      assert a + b == b;
    }
  }

  /** Concatenation of pages, in the order they were requested. */
  function Flatten<T>(ss: seq<seq<T>>): seq<T>
  {
    if |ss| == 0 then [] else Flatten(ss[..|ss| - 1]) + ss[|ss| - 1]
  }

  lemma {:induction false} FlattenAppend<T>(a: seq<seq<T>>, b: seq<seq<T>>)
    ensures Flatten(a + b) == Flatten(a) + Flatten(b)
    decreases |b|
  {
    if |b| == 0 {
      assert a + b == a;
    } else {
      var b' := b[..|b| - 1];
      assert (a + b)[..|a + b| - 1] == a + b';
      FlattenAppend(a, b');
    }
  }

  /** Concatenating empty pages gives nothing. */
  lemma {:induction false} FlattenOfEmpties<T>(ss: seq<seq<T>>)
    requires forall i :: 0 <= i < |ss| ==> ss[i] == []
    ensures Flatten(ss) == []
  {
    if |ss| > 0 {
      FlattenOfEmpties(ss[..|ss| - 1]);
    }
  }

  /** An element of a concatenation comes from one of the pages. */
  lemma {:induction false} FlattenMember<T>(ss: seq<seq<T>>, x: T)
    ensures x in Flatten(ss) <==> exists i :: 0 <= i < |ss| && x in ss[i]
  {
    if |ss| > 0 {
      var init := ss[..|ss| - 1];
      FlattenMember(init, x);
      assert forall i :: 0 <= i < |init| ==> init[i] == ss[i];
    }
  }

  /**
   * `s.slice(0, n)` for the non-negative bounds the backend passes. A
   * negative `n` gives the empty sequence here, while JavaScript would
   * count it from the end.
   */
  function Prefix<T(!new)>(s: seq<T>, n: int): (r: seq<T>)
    ensures |r| == if n <= 0 then 0 else if n < |s| then n else |s|
    ensures r == s[..|r|]
    ensures forall x :: x in r ==> x in s
  {
    if n <= 0 then [] else if n < |s| then s[..n] else s
  }

  /**
   * `[...new Set(s)]` written as a scan that remembers the elements already
   * emitted (`seen`): each element is kept at its first occurrence.
   */
  function Dedup<T(==,!new)>(s: seq<T>, seen: set<T>): (r: seq<T>)
    ensures Distinct(r)
    ensures forall x :: x in r <==> x in s && x !in seen
  {
    if |s| == 0 then []
    else if s[0] in seen then Dedup(s[1..], seen)
    else [s[0]] + Dedup(s[1..], seen + {s[0]})
  }

  function Uniq<T(==,!new)>(s: seq<T>): (r: seq<T>)
    ensures Distinct(r)
    ensures forall x :: x in r <==> x in s
  {
    Dedup(s, {})
  }

  /** `Uniq` keeps elements in the order of their first occurrences. */
  lemma {:induction false} DedupIsSubseq<T(!new)>(s: seq<T>, seen: set<T>)
    ensures IsSubseq(Dedup(s, seen), s)
  {
    if |s| > 0 {
      DedupIsSubseq(s[1..], seen + {s[0]});
      DedupIsSubseq(s[1..], seen);
      var r := Dedup(s[1..], seen + {s[0]});
      if s[0] in seen {
        SubseqDropHead(Dedup(s[1..], seen), s);
      } else {
        assert ([s[0]] + r)[1..] == r;
      }
    }
  }

  /**
   * Appending to the input appends to the de-duplicated list exactly when
   * the new element is unseen: first occurrences, in order.
   */
  lemma {:induction false} DedupSnoc<T(!new)>(s: seq<T>, seen: set<T>, x: T)
    ensures Dedup(s + [x], seen) == if x in s || x in seen then Dedup(s, seen) else Dedup(s, seen) + [x]
  {
    if |s| == 0 {
      assert s + [x] == [x];
      assert Dedup([x], seen) == if x in seen then [] else [x] + Dedup([], seen + {x});
    } else {
      assert (s + [x])[0] == s[0];
      assert (s + [x])[1..] == s[1..] + [x];
      if s[0] in seen {
        DedupSnoc(s[1..], seen, x);
      } else {
        DedupSnoc(s[1..], seen + {s[0]}, x);
      }
    }
  }

  /** `[...new Set(s.concat([x]))]` is `[...new Set(s)]`, followed by `x` iff `x` is new. */
  lemma UniqSnoc<T(!new)>(s: seq<T>, x: T)
    ensures Uniq(s + [x]) == if x in s then Uniq(s) else Uniq(s) + [x]
  {
    DedupSnoc(s, {}, x);
  }

  /** A sequence without repeats is its own de-duplication. */
  lemma {:induction false} DedupOfDistinct<T(!new)>(s: seq<T>, seen: set<T>)
    requires Distinct(s)
    requires forall i :: 0 <= i < |s| ==> s[i] !in seen
    ensures Dedup(s, seen) == s
  {
    if |s| > 0 {
      assert Distinct(s[1..]);
      DedupOfDistinct(s[1..], seen + {s[0]});
      assert [s[0]] + s[1..] == s;
    }
  }

  /**
   * `new Map(entries)`: a key that occurs several times is bound to the
   * value of its LAST entry.
   */
  function LastWins<K(!new), V>(entries: seq<(K, V)>): (m: map<K, V>)
    ensures forall k :: k in m <==> exists i :: 0 <= i < |entries| && entries[i].0 == k
    ensures forall k :: k in m ==>
      exists i :: 0 <= i < |entries| && entries[i] == (k, m[k])
        && forall j :: i < j < |entries| ==> entries[j].0 != k
  {
    if |entries| == 0 then map[]
    else
      var last := entries[|entries| - 1];
      LastWins(entries[..|entries| - 1])[last.0 := last.1]
  }
}
