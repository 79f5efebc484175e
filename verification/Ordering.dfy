/** Lexicographic ranks, and the one way to list a finite set of them in order:
    what `ORDER BY major ASC, minor ASC` and `sorted(...)` over distinct keys
    both compute. */
module Ordering {

  datatype Rank = Rank(major: int, minor: int)

  predicate Less(a: Rank, b: Rank) {
    a.major < b.major || (a.major == b.major && a.minor < b.minor)
  }

  predicate IsAscending(s: seq<Rank>) {
    forall i, j :: 0 <= i < j < |s| ==> Less(s[i], s[j])
  }

  ghost predicate Lists(s: seq<Rank>, elements: set<Rank>) {
    forall r :: r in s <==> r in elements
  }

  predicate IsLeast(r: Rank, elements: set<Rank>) {
    r in elements && forall other :: other in elements && other != r ==> Less(r, other)
  }

  lemma LeastExists(elements: set<Rank>)
    requires elements != {}
    ensures exists r :: IsLeast(r, elements)
  {
    var r :| r in elements;
    var rest := elements - {r};
    if rest == {} {
      assert elements == {r};
      assert IsLeast(r, elements);
    } else {
      LeastExists(rest);
      var l :| IsLeast(l, rest);
      assert forall other :: other in elements ==> other == r || other in rest;
      var winner := if Less(r, l) then r else l;
      assert IsLeast(winner, elements);
    }
  }

  function Ascending(elements: set<Rank>): seq<Rank> {
    if elements == {} then []
    else
      LeastExists(elements);
      var first :| IsLeast(first, elements);
      [first] + Ascending(elements - {first})
  }

  lemma {:induction false} AscendingLists(elements: set<Rank>)
    ensures IsAscending(Ascending(elements))
    ensures Lists(Ascending(elements), elements)
    ensures |Ascending(elements)| == |elements|
  {
    if elements != {} {
      var s := Ascending(elements);
      var rest := elements - {s[0]};
      LeastExists(elements);
      assert s == [s[0]] + Ascending(rest) && IsLeast(s[0], elements);
      AscendingLists(rest);
      forall i, j | 0 <= i < j < |s|
        ensures Less(s[i], s[j])
      {
        assert s[j] == Ascending(rest)[j - 1];
        assert s[j] in Ascending(rest);
        if i > 0 {
          assert s[i] == Ascending(rest)[i - 1];
        }
      }
    }
  }

  /** An ascending list is determined by its set of elements. */
  lemma {:induction false} AscendingUnique(s: seq<Rank>, t: seq<Rank>, elements: set<Rank>)
    requires IsAscending(s) && Lists(s, elements)
    requires IsAscending(t) && Lists(t, elements)
    ensures s == t
  {
    if s != [] {
      assert s[0] in t;
    }
    if t != [] {
      assert t[0] in s;
    }
    if s != [] {
      assert s[0] in t && t[0] in s;
      assert s[0] == t[0];
      AscendingTail(s, elements);
      AscendingTail(t, elements);
      AscendingUnique(s[1..], t[1..], elements - {s[0]});
      assert s == [s[0]] + s[1..] && t == [t[0]] + t[1..];
    }
  }

  lemma AscendingTail(s: seq<Rank>, elements: set<Rank>)
    requires s != [] && IsAscending(s) && Lists(s, elements)
    ensures IsAscending(s[1..]) && Lists(s[1..], elements - {s[0]})
  {
    forall r
      ensures r in s[1..] <==> r in elements - {s[0]}
    {
      if r in s[1..] {
        var i :| 0 <= i < |s[1..]| && s[1..][i] == r;
        assert s[i + 1] == r && Less(s[0], s[i + 1]);
        assert r in s;
      }
      if r in elements && r != s[0] {
        assert r in s;
        var i :| 0 <= i < |s| && s[i] == r;
        assert s[1..][i - 1] == r;
      }
    }
  }

  // ----- Stable sorting by a key ------------------------------------------

  predicate DistinctBy<T>(s: seq<T>, key: T -> Rank) {
    forall i, j :: 0 <= i < j < |s| ==> key(s[i]) != key(s[j])
  }

  predicate SortedBy<T>(s: seq<T>, key: T -> Rank) {
    forall i, j :: 0 <= i < j < |s| ==> Less(key(s[i]), key(s[j]))
  }

  /** Insert after every element that does not sort strictly later. */
  function InsertBy<T>(x: T, s: seq<T>, key: T -> Rank): seq<T> {
    if |s| == 0 then [x]
    else if Less(key(x), key(s[|s| - 1])) then InsertBy(x, s[..|s| - 1], key) + [s[|s| - 1]]
    else s + [x]
  }

  function SortBy<T>(s: seq<T>, key: T -> Rank): seq<T> {
    if |s| == 0 then [] else InsertBy(s[|s| - 1], SortBy(s[..|s| - 1], key), key)
  }

  lemma {:induction false} InsertByKeeps<T>(x: T, s: seq<T>, key: T -> Rank)
    ensures multiset(InsertBy(x, s, key)) == multiset(s) + multiset{x}
  {
    if |s| > 0 && Less(key(x), key(s[|s| - 1])) {
      InsertByKeeps(x, s[..|s| - 1], key);
      assert s == s[..|s| - 1] + [s[|s| - 1]];
    }
  }

  lemma {:induction false} InsertBySorted<T>(x: T, s: seq<T>, key: T -> Rank)
    requires SortedBy(s, key) && forall i :: 0 <= i < |s| ==> key(s[i]) != key(x)
    ensures SortedBy(InsertBy(x, s, key), key)
  {
    if |s| > 0 && Less(key(x), key(s[|s| - 1])) {
      var front, last := s[..|s| - 1], s[|s| - 1];
      InsertBySorted(x, front, key);
      InsertByKeeps(x, front, key);
      var r := InsertBy(x, front, key);
      forall i | 0 <= i < |r|
        ensures Less(key(r[i]), key(last))
      {
        assert r[i] in multiset(r);
        if r[i] != x {
          assert r[i] in front;
        }
      }
    }
  }

  lemma {:induction false} SortBySorted<T>(s: seq<T>, key: T -> Rank)
    requires DistinctBy(s, key)
    ensures SortedBy(SortBy(s, key), key)
    ensures multiset(SortBy(s, key)) == multiset(s)
  {
    if |s| > 0 {
      var front, last := s[..|s| - 1], s[|s| - 1];
      assert s == front + [last];
      SortBySorted(front, key);
      var r := SortBy(front, key);
      forall i | 0 <= i < |r|
        ensures key(r[i]) != key(last)
      {
        var y := r[i];
        assert y in multiset(r);
        var j :| 0 <= j < |front| && front[j] == y;
        assert s[j] == y;
      }
      InsertBySorted(last, r, key);
      InsertByKeeps(last, r, key);
    }
  }

  function KeysOf<T>(s: seq<T>, key: T -> Rank): (r: seq<Rank>)
    ensures |r| == |s| && forall i :: 0 <= i < |s| ==> r[i] == key(s[i])
  {
    seq(|s|, i requires 0 <= i < |s| => key(s[i]))
  }

  /** Sorted lists of the same elements are the same list. */
  lemma SortedDetermined<T>(s: seq<T>, t: seq<T>, key: T -> Rank)
    requires SortedBy(s, key) && SortedBy(t, key)
    requires forall y :: y in s <==> y in t
    ensures s == t
  {
    var ks, kt := KeysOf(s, key), KeysOf(t, key);
    var elements := set i | 0 <= i < |s| :: key(s[i]);
    forall r
      ensures r in ks <==> r in elements
      ensures r in kt <==> r in elements
    {
      if r in kt {
        var i :| 0 <= i < |t| && kt[i] == r;
        assert t[i] in s;
      }
      if r in elements {
        var i :| 0 <= i < |s| && key(s[i]) == r;
        assert ks[i] == r && s[i] in t;
        var j :| 0 <= j < |t| && t[j] == s[i];
        assert kt[j] == r;
      }
    }
    AscendingUnique(ks, kt, elements);
    forall i | 0 <= i < |s|
      ensures s[i] == t[i]
    {
      assert s[i] in t;
      var j :| 0 <= j < |t| && t[j] == s[i];
      assert ks[i] == kt[i] && kt[j] == ks[i];
    }
  }

  /** Sorting forgets the order of its input. */
  lemma SortByOrderIndependent<T>(s: seq<T>, t: seq<T>, key: T -> Rank)
    requires DistinctBy(s, key) && DistinctBy(t, key)
    requires forall y :: y in s <==> y in t
    ensures SortBy(s, key) == SortBy(t, key)
  {
    SortBySorted(s, key);
    SortBySorted(t, key);
    forall y
      ensures y in SortBy(s, key) <==> y in SortBy(t, key)
    {
      assert y in SortBy(s, key) <==> y in multiset(SortBy(s, key));
      assert y in SortBy(t, key) <==> y in multiset(SortBy(t, key));
    }
    SortedDetermined(SortBy(s, key), SortBy(t, key), key);
  }

  /** A sorted list is left as it is. */
  lemma SortOfSorted<T>(s: seq<T>, key: T -> Rank)
    requires SortedBy(s, key)
    ensures SortBy(s, key) == s
  {
    SortBySorted(s, key);
    forall y
      ensures y in SortBy(s, key) <==> y in s
    {
      assert y in SortBy(s, key) <==> y in multiset(SortBy(s, key));
      assert y in s <==> y in multiset(s);
    }
    SortedDetermined(SortBy(s, key), s, key);
  }
}
