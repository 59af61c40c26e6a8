/**
 * The two orderings the reports use: `sorted(d.items(), key=lambda x: x[1],
 * reverse=True)` (entries by non-increasing count) and `sorted(s)` of a set
 * of strings (ascending).
 */
module Sorting {
  import opened Text

  /** One `(key, count)` item of a counter dictionary. */
  datatype Entry<K> = Entry(key: K, count: int)

  ghost predicate NonIncreasing<K>(s: seq<Entry<K>>)
  {
    forall i, j :: 0 <= i < j < |s| ==> s[i].count >= s[j].count
  }

  /** `s` lists every item of `m` exactly once, and nothing else. */
  ghost predicate ListsMap<K(!new)>(s: seq<Entry<K>>, m: map<K, int>)
  {
    && |s| == |m|
    && forall e :: e in s <==> e.key in m && m[e.key] == e.count
  }

  /** Every count of a list that holds the entries of `u` and `x` is at most `c` when theirs are. */
  lemma AllAtMost<K>(c: int, t: seq<Entry<K>>, u: seq<Entry<K>>, x: Entry<K>)
    requires forall j :: 0 <= j < |u| ==> u[j].count <= c
    requires x.count <= c
    requires multiset(t) == multiset(u) + multiset{x}
    ensures forall j :: 0 <= j < |t| ==> t[j].count <= c
  {
    forall j | 0 <= j < |t|
      ensures t[j].count <= c
    {
      assert t[j] in multiset(t);
      if t[j] != x {
        assert t[j] in multiset(u);
      }
    }
  }

  /** An entry whose count is at least every count of a sorted list may go in front. */
  lemma ConsNonIncreasing<K>(e: Entry<K>, t: seq<Entry<K>>)
    requires NonIncreasing(t)
    requires forall j :: 0 <= j < |t| ==> t[j].count <= e.count
    ensures NonIncreasing([e] + t)
  {
    forall i, j | 0 <= i < j < |t| + 1
      ensures ([e] + t)[i].count >= ([e] + t)[j].count
    {
      assert ([e] + t)[j] == t[j - 1];
      if i > 0 {
        assert ([e] + t)[i] == t[i - 1];
      }
    }
  }

  /** Insert `x` in front of the first entry whose count is not larger. */
  function InsertByCount<K>(x: Entry<K>, s: seq<Entry<K>>): (r: seq<Entry<K>>)
    requires NonIncreasing(s)
    ensures NonIncreasing(r)
    ensures multiset(r) == multiset(s) + multiset{x}
  {
    if s == [] || x.count >= s[0].count then
      ConsNonIncreasing(x, s);
      [x] + s
    else
      var t := InsertByCount(x, s[1..]);
      assert forall j :: 0 <= j < |s[1..]| ==> s[1..][j].count <= s[0].count by {
        forall j | 0 <= j < |s[1..]| ensures s[1..][j].count <= s[0].count {
          assert s[1..][j] == s[j + 1];
        }
      }
      AllAtMost(s[0].count, t, s[1..], x);
      ConsNonIncreasing(s[0], t);
      assert s == [s[0]] + s[1..];
      [s[0]] + t
  }

  /** Insertion sort by non-increasing count. */
  function SortByCount<K>(s: seq<Entry<K>>): (r: seq<Entry<K>>)
    ensures NonIncreasing(r)
    ensures multiset(r) == multiset(s)
  {
    if s == [] then []
    else
      assert s == [s[0]] + s[1..];
      InsertByCount(s[0], SortByCount(s[1..]))
  }

  /** The items of a dictionary, in some order. */
  method Entries<K(!new)>(m: map<K, int>) returns (s: seq<Entry<K>>)
    ensures ListsMap(s, m)
  {
    var rest := m.Keys;
    s := [];
    while rest != {}
      invariant rest <= m.Keys
      invariant |s| + |rest| == |m|
      invariant forall e :: e in s <==> e.key in m.Keys - rest && m[e.key] == e.count
    {
      var k :| k in rest;
      s := s + [Entry(k, m[k])];
      rest := rest - {k};
    }
  }

  /** `sorted(m.items(), key=lambda x: x[1], reverse=True)`. */
  method ByCountDesc<K(!new)>(m: map<K, int>) returns (s: seq<Entry<K>>)
    ensures ListsMap(s, m)
    ensures NonIncreasing(s)
  {
    var items := Entries(m);
    s := SortByCount(items);
    assert |s| == |multiset(s)| == |multiset(items)| == |items|;
    forall e ensures e in s <==> e in items {
      assert e in s <==> e in multiset(s);
      assert e in items <==> e in multiset(items);
    }
  }

  ghost predicate Ascending(s: seq<string>)
  {
    forall i, j :: 0 <= i < j < |s| ==> StrictlyBelow(s[i], s[j])
  }

  lemma BelowStrictTransitive(a: string, b: string, c: string)
    requires Below(a, b) && Below(b, c) && (a != b || b != c)
    ensures StrictlyBelow(a, c)
  {
    BelowTransitive(a, b, c);
    if a == c {
      BelowAntisymmetric(a, b);
    }
  }

  /** Insert a new string into an ascending sequence of strings. */
  function InsertAscending(x: string, s: seq<string>): (r: seq<string>)
    requires Ascending(s) && x !in s
    ensures Ascending(r)
    ensures |r| == |s| + 1
    ensures forall y :: y in r <==> y == x || y in s
  {
    if s == [] then [x]
    else if Below(x, s[0]) then
      assert forall j :: 0 < j < |s| ==> StrictlyBelow(x, s[j]) by {
        forall j | 0 < j < |s| ensures StrictlyBelow(x, s[j]) {
          BelowStrictTransitive(x, s[0], s[j]);
        }
      }
      [x] + s
    else
      BelowTotal(x, s[0]);
      var t := InsertAscending(x, s[1..]);
      assert forall y :: y in t ==> StrictlyBelow(s[0], y) by {
        forall y | y in t ensures StrictlyBelow(s[0], y) {
          if y != x {
            var j :| 0 <= j < |s[1..]| && s[1..][j] == y;
            assert s[j + 1] == y;
          }
        }
      }
      [s[0]] + t
  }

  /** `sorted(xs)` for a set of strings. */
  method SortedStrings(xs: set<string>) returns (r: seq<string>)
    ensures Ascending(r)
    ensures |r| == |xs|
    ensures forall y :: y in r <==> y in xs
  {
    var rest := xs;
    r := [];
    while rest != {}
      invariant rest <= xs
      invariant Ascending(r)
      invariant |r| + |rest| == |xs|
      invariant forall y :: y in r <==> y in xs - rest
    {
      var k :| k in rest;
      r := InsertAscending(k, r);
      rest := rest - {k};
    }
  }
}
