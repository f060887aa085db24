/**
 * Array operations that the catalogue stores build on, written once:
 * JavaScript's `filter` and `map`, the "spread into a Set" de-duplication,
 * `includes`-guarded append and removal of every occurrence of a value.
 */
module Lists {

  /** `r` can be obtained from `s` by deleting elements, keeping order. */
  predicate IsSubsequence<T(==,!new)>(r: seq<T>, s: seq<T>)
    decreases |s|
  {
    if r == [] then true
    else if s == [] then false
    else if r[0] == s[0] then IsSubsequence(r[1..], s[1..])
    else IsSubsequence(r, s[1..])
  }

  /** No value occurs twice. */
  predicate NoDuplicates<T(==,!new)>(s: seq<T>) {
    forall i, j :: 0 <= i < j < |s| ==> s[i] != s[j]
  }

  /** `Array.prototype.filter`: keeps, in order, exactly the elements `f` accepts. */
  function Filter<T(!new)>(s: seq<T>, f: T -> bool): (r: seq<T>)
    ensures |r| <= |s|
    ensures forall x :: x in r <==> x in s && f(x)
    ensures forall x :: multiset(r)[x] == if f(x) then multiset(s)[x] else 0
    ensures IsSubsequence(r, s)
  {
    if s == [] then []
    else
      var rest := Filter(s[1..], f);
      MultisetCons(s);
      if f(s[0]) then
        [s[0]] + rest
      else
        assert rest != [] ==> rest[0] in rest && rest[0] != s[0];
        rest
  }

  /** The multiset of a non-empty list: its head plus its tail. */
  lemma MultisetCons<T>(s: seq<T>)
    requires s != []
    ensures multiset(s) == multiset([s[0]]) + multiset(s[1..])
  {
    assert s == [s[0]] + s[1..];
  }

  /** `Array.prototype.map`: one result per element, position by position. */
  function Map<T, U>(s: seq<T>, f: T -> U): (r: seq<U>)
    ensures |r| == |s|
    ensures forall i :: 0 <= i < |s| ==> r[i] == f(s[i])
  {
    if s == [] then [] else [f(s[0])] + Map(s[1..], f)
  }

  /** Every element of `r` is accepted by `f`, so filtering changes nothing. */
  lemma {:induction false} FilterKeepsAll<T(!new)>(s: seq<T>, f: T -> bool)
    requires forall x :: x in s ==> f(x)
    ensures Filter(s, f) == s
  {
    if s != [] {
      FilterKeepsAll(s[1..], f);
    }
  }

  /** Two tests that agree on the elements of `s` filter it alike. */
  lemma {:induction false} FilterAgree<T(!new)>(s: seq<T>, f: T -> bool, g: T -> bool)
    requires forall x :: x in s ==> f(x) == g(x)
    ensures Filter(s, f) == Filter(s, g)
  {
    if s != [] {
      FilterAgree(s[1..], f, g);
    }
  }

  /** Filtering by `f` and then by `g` is filtering once by their conjunction `h`. */
  lemma {:induction false} FilterThen<T(!new)>(s: seq<T>, f: T -> bool, g: T -> bool, h: T -> bool)
    requires forall x :: x in s ==> h(x) == (f(x) && g(x))
    ensures Filter(Filter(s, f), g) == Filter(s, h)
  {
    if s != [] {
      FilterThen(s[1..], f, g, h);
    }
  }

  /**
   * One stage of a filter applied step by step: when the list so far is
   * `all` filtered by `f`, applying `g` if the stage is active yields `all`
   * filtered by `h`, the conjunction of `f` and (when active) `g`.
   */
  lemma FilterStage<T(!new)>(all: seq<T>, prev: seq<T>, f: T -> bool, active: bool, g: T -> bool, h: T -> bool)
    requires prev == Filter(all, f)
    requires forall x :: x in all ==> h(x) == (f(x) && (!active || g(x)))
    ensures (if active then Filter(prev, g) else prev) == Filter(all, h)
  {
    if active {
      FilterThen(all, f, g, h);
    } else {
      FilterAgree(all, f, h);
    }
  }

  /**
   * One stage of a filter applied step by step: when the stage is active the
   * list so far is filtered by `g`, otherwise it is kept; from `all` filtered
   * by `f` this reaches `all` filtered by `h`.
   */
  method Narrow<T(!new)>(ghost all: seq<T>, prev: seq<T>, ghost f: T -> bool, active: bool, g: T -> bool, ghost h: T -> bool)
      returns (r: seq<T>)
    requires prev == Filter(all, f)
    requires forall x :: x in all ==> h(x) == (f(x) && (!active || g(x)))
    ensures r == Filter(all, h)
  {
    r := prev;
    if active {
      r := Filter(prev, g);
    }
    FilterStage(all, prev, f, active, g, h);
  }

  /** Filtering distributes over concatenation. */
  lemma {:induction false} FilterAppend<T(!new)>(s: seq<T>, t: seq<T>, f: T -> bool)
    ensures Filter(s + t, f) == Filter(s, f) + Filter(t, f)
  {
    if s == [] {
      assert s + t == t;
    } else {
      assert (s + t)[1..] == s[1..] + t;
      FilterAppend(s[1..], t, f);
    }
  }

  /** Filtering keeps a duplicate-free list duplicate-free. */
  lemma {:induction false} FilterNoDuplicates<T(!new)>(s: seq<T>, f: T -> bool)
    requires NoDuplicates(s)
    ensures NoDuplicates(Filter(s, f))
  {
    if s != [] {
      var tail := s[1..];
      assert NoDuplicates(tail) by {
        forall i, j | 0 <= i < j < |tail| ensures tail[i] != tail[j] { assert tail[i] == s[i + 1] && tail[j] == s[j + 1]; }
      }
      FilterNoDuplicates(tail, f);
      assert s[0] !in tail by {
        forall k | 0 <= k < |tail| ensures tail[k] != s[0] { assert s[k + 1] == tail[k]; }
      }
    }
  }

  /** Every occurrence of `x` removed, the other elements kept in order. */
  function RemoveAll<T(==,!new)>(s: seq<T>, x: T): (r: seq<T>)
    ensures x !in r
    ensures forall y :: y != x ==> (y in r <==> y in s)
    ensures forall y :: multiset(r)[y] == if y == x then 0 else multiset(s)[y]
    ensures IsSubsequence(r, s)
  {
    Filter(s, y => y != x)
  }

  /** Removing an absent value changes nothing. */
  lemma RemoveAbsent<T(!new)>(s: seq<T>, x: T)
    requires x !in s
    ensures RemoveAll(s, x) == s
  {
    FilterKeepsAll(s, y => y != x);
  }

  /** Appending an absent value and then removing it gives the list back. */
  lemma {:induction false} RemoveAllAppendAbsent<T(!new)>(s: seq<T>, x: T)
    requires x !in s
    ensures RemoveAll(s + [x], x) == s
  {
    if s == [] {
      assert s + [x] == [x];
    } else {
      RemoveAllAppendAbsent(s[1..], x);
      assert (s + [x])[1..] == s[1..] + [x];
    }
  }

  /** Removal keeps a duplicate-free list duplicate-free. */
  lemma RemoveAllNoDuplicates<T(!new)>(s: seq<T>, x: T)
    requires NoDuplicates(s)
    ensures NoDuplicates(RemoveAll(s, x))
  {
    FilterNoDuplicates(s, y => y != x);
  }

  /**
   * `s.includes(x) ? s.filter(y => y !== x) : [...s, x]`: a present value is
   * removed (every occurrence), an absent one appended.
   */
  function Toggle<T(==,!new)>(s: seq<T>, x: T): (r: seq<T>)
    ensures x in r <==> x !in s
    ensures forall y :: y != x ==> (y in r <==> y in s)
    ensures x !in s ==> r == s + [x]
    ensures x in s ==> r == RemoveAll(s, x)
  {
    if x in s then RemoveAll(s, x) else s + [x]
  }

  /** Toggling an absent value twice gives the list back. */
  lemma ToggleTwiceRestores<T(!new)>(s: seq<T>, x: T)
    requires x !in s
    ensures Toggle(Toggle(s, x), x) == s
  {
    RemoveAllAppendAbsent(s, x);
  }

  /** Toggling a present value twice moves it to the end. */
  lemma ToggleTwiceMovesToEnd<T(!new)>(s: seq<T>, x: T)
    requires x in s
    ensures Toggle(Toggle(s, x), x) == RemoveAll(s, x) + [x]
  {
  }

  /** Toggling keeps a duplicate-free list duplicate-free. */
  lemma ToggleNoDuplicates<T(!new)>(s: seq<T>, x: T)
    requires NoDuplicates(s)
    ensures NoDuplicates(Toggle(s, x))
  {
    RemoveAllNoDuplicates(s, x);
    AppendIfAbsentNoDuplicates(s, x);
  }

  /** `includes(x) ? s : [...s, x]`: append only a value that is not there yet. */
  function AppendIfAbsent<T(==,!new)>(s: seq<T>, x: T): (r: seq<T>)
    ensures x in r
    ensures x in s ==> r == s
    ensures x !in s ==> r == s + [x]
  {
    if x in s then s else s + [x]
  }

  /** The value is appended only once, however often the operation is repeated. */
  lemma AppendIfAbsentIdempotent<T(!new)>(s: seq<T>, x: T)
    ensures AppendIfAbsent(AppendIfAbsent(s, x), x) == AppendIfAbsent(s, x)
  {
  }

  /** Appending an absent value keeps a list duplicate-free. */
  lemma AppendIfAbsentNoDuplicates<T(!new)>(s: seq<T>, x: T)
    requires NoDuplicates(s)
    ensures NoDuplicates(AppendIfAbsent(s, x))
  {
    if x !in s {
      var r := s + [x];
      forall i, j | 0 <= i < j < |r| ensures r[i] != r[j] {
        if j == |s| { assert r[i] == s[i]; }
      }
    }
  }

  /** The position of the first occurrence of `x` in `s`. */
  function FirstIndex<T(==)>(s: seq<T>, x: T): (i: nat)
    requires x in s
    ensures i < |s| && s[i] == x && x !in s[..i]
  {
    if s[0] == x then 0
    else
      var k := FirstIndex(s[1..], x);
      assert s[..k + 1] == [s[0]] + s[1..][..k];
      k + 1
  }

  /**
   * `[...new Set(s)]` restricted to the values not in `seen`: the first
   * occurrence of every value, in order.
   */
  function DedupFrom<T(==,!new)>(s: seq<T>, seen: set<T>): (r: seq<T>)
    ensures forall x :: x in r <==> x in s && x !in seen
    ensures NoDuplicates(r)
    ensures IsSubsequence(r, s)
  {
    if s == [] then []
    else if s[0] in seen then
      var rest := DedupFrom(s[1..], seen);
      assert rest != [] ==> rest[0] in rest && rest[0] != s[0];
      rest
    else
      var rest := DedupFrom(s[1..], seen + {s[0]});
      var r := [s[0]] + rest;
      assert forall i :: 1 <= i < |r| ==> r[i] == rest[i - 1] && r[i] in rest;
      r
  }

  /** Values are kept in the order of their first occurrences. */
  predicate InFirstOccurrenceOrder<T(==)>(r: seq<T>, s: seq<T>)
    requires forall x :: x in r ==> x in s
  {
    forall i, j :: 0 <= i < j < |r| ==> FirstIndex(s, r[i]) < FirstIndex(s, r[j])
  }

  /** Past the head, first occurrences shift by one. */
  lemma FirstIndexTail<T>(s: seq<T>, y: T)
    requires y in s && y != s[0]
    ensures y in s[1..] && FirstIndex(s, y) == FirstIndex(s[1..], y) + 1
  {
    assert s == [s[0]] + s[1..];
  }

  /** `DedupFrom` lists the values it keeps in the order of their first occurrences in `s`. */
  lemma {:induction false} DedupFromFirstOccurrenceOrder<T(!new)>(s: seq<T>, seen: set<T>)
    ensures InFirstOccurrenceOrder(DedupFrom(s, seen), s)
  {
    if s != [] {
      var seen' := if s[0] in seen then seen else seen + {s[0]};
      var rest := DedupFrom(s[1..], seen');
      DedupFromFirstOccurrenceOrder(s[1..], seen');
      forall y | y in rest ensures FirstIndex(s, y) == FirstIndex(s[1..], y) + 1 {
        FirstIndexTail(s, y);
      }
      if s[0] !in seen {
        var r := [s[0]] + rest;
        assert DedupFrom(s, seen) == r;
        forall i, j | 0 <= i < j < |r| ensures FirstIndex(s, r[i]) < FirstIndex(s, r[j]) {
          assert r[j] == rest[j - 1] && r[j] in rest;
          if i > 0 { assert r[i] == rest[i - 1] && r[i] in rest; }
        }
      }
    }
  }

  /** `[...new Set(s)]`: the first occurrence of every value, in order of first occurrence. */
  function Dedup<T(==,!new)>(s: seq<T>): (r: seq<T>)
    ensures forall x :: x in r <==> x in s
    ensures NoDuplicates(r)
    ensures IsSubsequence(r, s)
    ensures InFirstOccurrenceOrder(r, s)
  {
    DedupFromFirstOccurrenceOrder(s, {});
    DedupFrom(s, {})
  }

  /** Removing the head of a list without duplicates leaves the head out and no duplicates behind. */
  lemma NoDuplicatesTail<T(!new)>(s: seq<T>)
    requires s != [] && NoDuplicates(s)
    ensures s[0] !in s[1..] && NoDuplicates(s[1..])
  {
    var tail := s[1..];
    forall k | 0 <= k < |tail| ensures tail[k] != s[0] { assert tail[k] == s[k + 1]; }
    forall i, j | 0 <= i < j < |tail| ensures tail[i] != tail[j] { assert tail[i] == s[i + 1] && tail[j] == s[j + 1]; }
  }

  /** Values already seen contribute nothing. */
  lemma {:induction false} DedupFromSeen<T(!new)>(s: seq<T>, seen: set<T>)
    requires forall x :: x in s ==> x in seen
    ensures DedupFrom(s, seen) == []
  {
    if s != [] {
      DedupFromSeen(s[1..], seen);
    }
  }

  /** A value not yet seen is kept in front, and the rest is de-duplicated with it seen. */
  lemma DedupFromCons<T(!new)>(x: T, rest: seq<T>, seen: set<T>)
    requires x !in seen
    ensures DedupFrom([x] + rest, seen) == [x] + DedupFrom(rest, seen + {x})
  {
    assert ([x] + rest)[1..] == rest;
  }

  /** Appending to a non-empty list is appending to its tail behind its head. */
  lemma ConsAppend<T>(s: seq<T>, t: seq<T>)
    requires s != []
    ensures s + t == [s[0]] + (s[1..] + t)
  {
    assert s == [s[0]] + s[1..];
  }

  /** The inductive step of `DedupFromAppend`: an unseen head stays in front. */
  lemma DedupFromAppendStep<T(!new)>(s: seq<T>, t: seq<T>, seen: set<T>, rest: seq<T>)
    requires s != [] && s[0] !in seen
    requires DedupFrom(s[1..] + t, seen + {s[0]}) == s[1..] + rest
    ensures DedupFrom(s + t, seen) == s + rest
  {
    ConsAppend(s, t);
    ConsAppend(s, rest);
    DedupFromCons(s[0], s[1..] + t, seen);
  }

  /** De-duplicating a prefix that has no duplicates keeps it as the prefix. */
  lemma {:induction false} DedupFromAppend<T(!new)>(s: seq<T>, t: seq<T>, seen: set<T>, seen': set<T>)
    requires NoDuplicates(s)
    requires forall x :: x in s ==> x !in seen
    requires forall x :: x in seen' <==> x in seen || x in s
    ensures DedupFrom(s + t, seen) == s + DedupFrom(t, seen')
  {
    if s == [] {
      assert s + t == t;
      assert seen' == seen;
    } else {
      var tail := s[1..];
      NoDuplicatesTail(s);
      assert s == [s[0]] + tail;
      DedupFromAppend(tail, t, seen + {s[0]}, seen');
      DedupFromAppendStep(s, t, seen, DedupFrom(t, seen'));
    }
  }

  /** When `t` adds nothing new, `Dedup(s + t)` is just `s`. */
  lemma DedupAbsorbs<T(!new)>(s: seq<T>, t: seq<T>)
    requires NoDuplicates(s)
    requires forall x :: x in t ==> x in s
    ensures Dedup(s + t) == s
  {
    var seen' := set x | x in s;
    DedupFromAppend(s, t, {}, seen');
    DedupFromSeen(t, seen');
  }

  /** The union step of a tag merge is idempotent: merging `t` twice equals merging it once. */
  lemma DedupMergeIdempotent<T(!new)>(s: seq<T>, t: seq<T>)
    ensures Dedup(Dedup(s + t) + t) == Dedup(s + t)
  {
    DedupAbsorbs(Dedup(s + t), t);
  }

  /** Merging into a duplicate-free list keeps that list as the prefix and adds only absent values. */
  lemma DedupMergeExtends<T(!new)>(s: seq<T>, t: seq<T>)
    requires NoDuplicates(s)
    ensures Dedup(s + t) == s + DedupFrom(t, set x | x in s)
  {
    DedupFromAppend(s, t, {}, set x | x in s);
  }
}
