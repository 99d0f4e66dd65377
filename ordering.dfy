/**
 * Sequence helpers and what the SQL `ORDER BY ... LIMIT ? OFFSET ?` clauses of the queries do to a
 * result set: a stable sort by a total preorder, then a window.
 */
module Ordering {

  /** `le` orders any two values and is transitive: what an ORDER BY key gives. */
  ghost predicate TotalPreorder<T(!new)>(le: (T, T) -> bool) {
    && (forall a, b :: le(a, b) || le(b, a))
    && (forall a, b, c :: le(a, b) && le(b, c) ==> le(a, c))
  }

  predicate Sorted<T>(s: seq<T>, le: (T, T) -> bool) {
    forall i, j :: 0 <= i < j < |s| ==> le(s[i], s[j])
  }

  /** Applies `f` to every element: the projection of rows onto result columns. */
  function MapSeq<A, B>(s: seq<A>, f: A -> B): (r: seq<B>)
    ensures |r| == |s|
    ensures forall k :: 0 <= k < |s| ==> r[k] == f(s[k])
  {
    if s == [] then [] else MapSeq(s[..|s| - 1], f) + [f(s[|s| - 1])]
  }

  lemma MapSeqSnoc<A, B>(s: seq<A>, x: A, f: A -> B)
    ensures MapSeq(s + [x], f) == MapSeq(s, f) + [f(x)]
  {
    assert (s + [x])[..|s|] == s;
  }

  lemma MapSeqAppend<A, B>(a: seq<A>, b: seq<A>, f: A -> B)
    ensures MapSeq(a + b, f) == MapSeq(a, f) + MapSeq(b, f)
  {
    assert forall k :: 0 <= k < |a + b| ==> MapSeq(a + b, f)[k] == (MapSeq(a, f) + MapSeq(b, f))[k];
  }

  /** Puts `x` in front of the first element it may precede. */
  function Insert<T(!new)>(x: T, s: seq<T>, le: (T, T) -> bool): (r: seq<T>)
    requires TotalPreorder(le) && Sorted(s, le)
    ensures Sorted(r, le)
    ensures multiset(r) == multiset(s) + multiset{x}
    ensures |r| == |s| + 1
  {
    if s == [] then [x]
    else if le(x, s[0]) then [x] + s
    else
      var t := Insert(x, s[1..], le);
      assert s == [s[0]] + s[1..];
      assert forall k :: 0 <= k < |t| ==> le(s[0], t[k]) by {
        forall k | 0 <= k < |t| ensures le(s[0], t[k]) {
          assert t[k] in multiset(t);
          assert t[k] == x || t[k] in multiset(s[1..]);
          if t[k] != x {
            var m :| 0 <= m < |s[1..]| && s[1..][m] == t[k];
            assert s[1 + m] == t[k];
          }
        }
      }
      [s[0]] + t
  }

  /** Insertion sort: the result is sorted and a permutation of the input. */
  function SortBy<T(!new)>(s: seq<T>, le: (T, T) -> bool): (r: seq<T>)
    requires TotalPreorder(le)
    ensures Sorted(r, le)
    ensures multiset(r) == multiset(s)
    ensures |r| == |s|
  {
    if s == [] then []
    else
      assert s == [s[0]] + s[1..];
      Insert(s[0], SortBy(s[1..], le), le)
  }

  /**
   * `LIMIT limit OFFSET offset` as SQLite evaluates it: a negative offset
   * counts as zero and a negative limit means no limit.
   */
  function Window<T>(s: seq<T>, offset: int, limit: int): (r: seq<T>)
    ensures limit >= 0 ==> |r| <= limit
    ensures var start := if offset < 0 then 0 else offset;
            forall k :: 0 <= k < |r| ==> start + k < |s| && r[k] == s[start + k]
    ensures var start := if offset < 0 then 0 else offset;
            |r| == if start >= |s| then 0
                   else if limit < 0 || start + limit > |s| then |s| - start
                   else limit
  {
    var start := if offset < 0 then 0 else offset;
    if start >= |s| then []
    else if limit < 0 || start + limit > |s| then s[start..]
    else s[start..start + limit]
  }

  /** A window of a sorted sequence is sorted. */
  lemma WindowSorted<T>(s: seq<T>, offset: int, limit: int, le: (T, T) -> bool)
    requires Sorted(s, le)
    ensures Sorted(Window(s, offset, limit), le)
  {
  }

  /** Sorting neither adds nor drops a value. */
  lemma SortByMembers<T(!new)>(s: seq<T>, le: (T, T) -> bool)
    requires TotalPreorder(le)
    ensures forall x :: x in SortBy(s, le) <==> x in s
  {
    var r := SortBy(s, le);
    forall x ensures x in r <==> x in s {
      assert x in r <==> x in multiset(r);
      assert x in s <==> x in multiset(s);
    }
  }

  /** A window holds only values of the sequence, and with no offset and no limit it is all of it. */
  lemma WindowWithin<T>(s: seq<T>, offset: int, limit: int)
    ensures forall x :: x in Window(s, offset, limit) ==> x in s
    ensures offset <= 0 && limit < 0 ==> Window(s, offset, limit) == s
  {
    var r := Window(s, offset, limit);
    var start := if offset < 0 then 0 else offset;
    forall x | x in r ensures x in s {
      var k :| 0 <= k < |r| && r[k] == x;
      assert s[start + k] == x;
    }
  }
}
