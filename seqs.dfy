/**
 * Sequence helpers shared by the dataset utilities: an order-preserving
 * filter (a list comprehension with an `if`) and first-occurrence
 * de-duplication (the key order of a Python dict or of `dict.fromkeys`).
 */
module Seqs {

  /** `[x for x in s if keep(x)]`. */
  function Filter<T>(s: seq<T>, keep: T -> bool): seq<T>
  {
    if s == [] then [] else Filter(s[..|s| - 1], keep) + (if keep(s[|s| - 1]) then [s[|s| - 1]] else [])
  }

  /** The filter keeps exactly the members that pass. */
  lemma {:induction false} FilterMembers<T>(s: seq<T>, keep: T -> bool)
    ensures forall x :: x in Filter(s, keep) <==> x in s && keep(x)
  {
    if s != [] {
      var pre := s[..|s| - 1];
      FilterMembers(pre, keep);
      assert s == pre + [s[|s| - 1]];
    }
  }

  /** Each passing member is kept as often as it occurs, so duplicates survive; the rest vanish. */
  lemma {:induction false} FilterCount<T>(s: seq<T>, keep: T -> bool, x: T)
    ensures multiset(Filter(s, keep))[x] == if keep(x) then multiset(s)[x] else 0
  {
    if s != [] {
      var pre := s[..|s| - 1];
      FilterCount(pre, keep, x);
      assert s == pre + [s[|s| - 1]];
      assert multiset(s) == multiset(pre) + multiset{s[|s| - 1]};
    }
  }

  /** Filtering distributes over concatenation, so the kept members stay in input order. */
  lemma {:induction false} FilterAppend<T>(a: seq<T>, b: seq<T>, keep: T -> bool)
    ensures Filter(a + b, keep) == Filter(a, keep) + Filter(b, keep)
    decreases |b|
  {
    if b == [] {
      assert a + b == a;
    } else {
      assert (a + b)[..|a + b| - 1] == a + b[..|b| - 1];
      FilterAppend(a, b[..|b| - 1], keep);
    }
  }

  /** A filter over members that all pass changes nothing. */
  lemma {:induction false} FilterAll<T>(s: seq<T>, keep: T -> bool)
    requires forall i :: 0 <= i < |s| ==> keep(s[i])
    ensures Filter(s, keep) == s
  {
    if s != [] {
      FilterAll(s[..|s| - 1], keep);
    }
  }

  /** A filter over members that all fail is empty. */
  lemma {:induction false} FilterNone<T>(s: seq<T>, keep: T -> bool)
    requires forall i :: 0 <= i < |s| ==> !keep(s[i])
    ensures Filter(s, keep) == []
  {
    if s != [] {
      FilterNone(s[..|s| - 1], keep);
    }
  }

  /** Filtering never lengthens. */
  lemma {:induction false} FilterLength<T>(s: seq<T>, keep: T -> bool)
    ensures |Filter(s, keep)| <= |s|
  {
    if s != [] {
      FilterLength(s[..|s| - 1], keep);
    }
  }

  /** Each value once, in order of first occurrence. */
  function Dedup<T(==)>(s: seq<T>): seq<T>
  {
    if s == [] then []
    else if s[|s| - 1] in Dedup(s[..|s| - 1]) then Dedup(s[..|s| - 1])
    else Dedup(s[..|s| - 1]) + [s[|s| - 1]]
  }

  predicate Distinct<T(==)>(s: seq<T>)
  {
    forall i, j :: 0 <= i < j < |s| ==> s[i] != s[j]
  }

  /** De-duplication keeps every value, adds none and repeats none. */
  lemma {:induction false} DedupSpec<T>(s: seq<T>)
    ensures forall x :: x in Dedup(s) <==> x in s
    ensures Distinct(Dedup(s))
  {
    if s != [] {
      var pre := s[..|s| - 1];
      DedupSpec(pre);
      assert s == pre + [s[|s| - 1]];
    }
  }

  lemma DedupMember<T>(s: seq<T>, x: T)
    ensures x in Dedup(s) <==> x in s
  {
    DedupSpec(s);
  }

  /** The position of the first occurrence of `x` in `s`. */
  function FirstIndex<T(==)>(s: seq<T>, x: T): (i: nat)
    requires x in s
    ensures i < |s| && s[i] == x
    ensures forall k :: 0 <= k < i ==> s[k] != x
  {
    var pre := s[..|s| - 1];
    if x in pre then
      var i := FirstIndex(pre, x);
      assert s[i] == pre[i];
      assert forall k :: 0 <= k < i ==> s[k] == pre[k];
      i
    else
      assert forall k :: 0 <= k < |s| - 1 ==> s[k] == pre[k];
      |s| - 1
  }

  /** Every member of `d` occurs in `s`, and `d` lists them in the order of their first occurrence in `s`. */
  predicate InFirstOccurrenceOrder<T(==)>(d: seq<T>, s: seq<T>)
  {
    forall i, j :: 0 <= i < j < |d| ==> OccursBefore(s, d[i], d[j])
  }

  /** `x` and `y` occur in `s`, and `x` first occurs before `y` does. */
  predicate OccursBefore<T(==)>(s: seq<T>, x: T, y: T)
  {
    x in s && y in s && FirstIndex(s, x) < FirstIndex(s, y)
  }

  lemma FirstIndexInPrefix<T>(s: seq<T>, x: T)
    requires s != [] && x in s[..|s| - 1]
    ensures FirstIndex(s, x) == FirstIndex(s[..|s| - 1], x) < |s| - 1
  {
  }

  /** De-duplication lists the values in the order of their first occurrence. */
  lemma {:induction false} DedupOrder<T>(s: seq<T>)
    ensures InFirstOccurrenceOrder(Dedup(s), s)
  {
    if s != [] {
      var pre, last := s[..|s| - 1], s[|s| - 1];
      DedupOrder(pre);
      var dp := Dedup(pre);
      if last in dp {
        forall i, j | 0 <= i < j < |dp|
          ensures OccursBefore(s, dp[i], dp[j])
        {
          DedupMember(pre, dp[i]);
          DedupMember(pre, dp[j]);
          FirstIndexInPrefix(s, dp[i]);
          FirstIndexInPrefix(s, dp[j]);
        }
        assert InFirstOccurrenceOrder(dp, s);
      } else {
        var d := dp + [last];
        DedupMember(pre, last);
        forall i, j | 0 <= i < j < |d|
          ensures OccursBefore(s, d[i], d[j])
        {
          assert d[i] == dp[i];
          DedupMember(pre, dp[i]);
          FirstIndexInPrefix(s, dp[i]);
          if j < |dp| {
            assert d[j] == dp[j];
            DedupMember(pre, dp[j]);
            FirstIndexInPrefix(s, dp[j]);
          } else {
            assert d[j] == last;
          }
        }
        assert InFirstOccurrenceOrder(d, s);
      }
    }
  }

  /** A non-empty sequence is its prefix followed by its last element. */
  lemma LastSplit<T>(s: seq<T>)
    requires s != []
    ensures s == s[..|s| - 1] + [s[|s| - 1]]
  {
  }

  /** A position of a member. */
  lemma IndexOf<T>(s: seq<T>, x: T) returns (i: nat)
    requires x in s
    ensures i < |s| && s[i] == x
  {
    i :| i < |s| && s[i] == x;
  }
}
