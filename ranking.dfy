/**
  Ranking the search results: lodash's `orderBy(data, ["score", "resolution", "seeders"],
  ["desc", "desc", "desc"])`, a stable sort, descending and lexicographic on the three
  keys. It is written here as an insertion sort over any sequence together with the
  function that reads the three keys, `KeyOf` for the search results.
 */
module Ranking {
  import opened Records

  datatype SortKey = SortKey(score: int, resolution: int, seeders: int)

  /** The iteratees `["score", "resolution", "seeders"]` applied to a search result. */
  function KeyOf(c: Candidate): SortKey {
    SortKey(Get(c, "score").n, Get(c, "resolution").n, Get(c, "seeders").n)
  }

  /** `a` may be listed before `b`: it is at least as large in the order score, then
      resolution, then seeders. */
  predicate AtLeast(a: SortKey, b: SortKey) {
    || a.score > b.score
    || (a.score == b.score && a.resolution > b.resolution)
    || (a.score == b.score && a.resolution == b.resolution && a.seeders >= b.seeders)
  }

  /** Non-increasing in (score, resolution, seeders). */
  ghost predicate Sorted<T>(s: seq<T>, key: T -> SortKey) {
    forall i, j :: 0 <= i < j < |s| ==> AtLeast(key(s[i]), key(s[j]))
  }

  /** The elements of `s` whose three keys equal `k`, in their order in `s`. */
  function Filter<T>(s: seq<T>, key: T -> SortKey, k: SortKey): (f: seq<T>)
    ensures |f| <= |s|
  {
    if s == [] then []
    else (if key(s[0]) == k then [s[0]] else []) + Filter(s[1..], key, k)
  }

  /** Places `c` in front of the first element of `s` that it is at least as large as,
      so that it precedes the elements it ties with. */
  function Insert<T>(c: T, s: seq<T>, key: T -> SortKey): (r: seq<T>)
    ensures |r| == |s| + 1
    ensures multiset(r) == multiset(s) + multiset{c}
    ensures r[0] == c || (s != [] && r[0] == s[0])
  {
    if s == [] || AtLeast(key(c), key(s[0])) then [c] + s
    else
      assert s == [s[0]] + s[1..];
      [s[0]] + Insert(c, s[1..], key)
  }

  /** The ranked list: each element is inserted, last to first, into the ranking of
      those after it. */
  function Rank<T>(cs: seq<T>, key: T -> SortKey): (r: seq<T>)
    ensures |r| == |cs|
    ensures multiset(r) == multiset(cs)
  {
    if cs == [] then []
    else
      assert cs == [cs[0]] + cs[1..];
      Insert(cs[0], Rank(cs[1..], key), key)
  }

  lemma {:induction false} InsertSorted<T>(c: T, s: seq<T>, key: T -> SortKey)
    requires Sorted(s, key)
    ensures Sorted(Insert(c, s, key), key)
  {
    if s != [] && !AtLeast(key(c), key(s[0])) {
      var t := s[1..];
      var r := Insert(c, t, key);
      InsertSorted(c, t, key);
      assert Insert(c, s, key) == [s[0]] + r;
      forall j | 0 <= j < |r|
        ensures AtLeast(key(s[0]), key(r[j]))
      {
        assert r[j] in multiset(r);
        if r[j] != c {
          assert r[j] in multiset(t);
          var m :| 0 <= m < |t| && t[m] == r[j];
          assert s[m + 1] == r[j];
        }
      }
    }
  }

  /** The ranked list is non-increasing in (score, resolution, seeders). */
  lemma {:induction false} RankSorted<T>(cs: seq<T>, key: T -> SortKey)
    ensures Sorted(Rank(cs, key), key)
  {
    if cs != [] {
      RankSorted(cs[1..], key);
      InsertSorted(cs[0], Rank(cs[1..], key), key);
    }
  }

  /** No element is dropped or duplicated by ranking. */
  lemma RankPermutes<T>(cs: seq<T>, key: T -> SortKey)
    ensures multiset(Rank(cs, key)) == multiset(cs)
    ensures forall c :: c in cs <==> c in Rank(cs, key)
  {
    forall c
      ensures c in cs <==> c in Rank(cs, key)
    {
      assert c in cs <==> c in multiset(cs);
      assert c in Rank(cs, key) <==> c in multiset(Rank(cs, key));
    }
  }

  lemma {:induction false} FilterInsert<T>(c: T, s: seq<T>, key: T -> SortKey, k: SortKey)
    requires Sorted(s, key)
    ensures Filter(Insert(c, s, key), key, k) == Filter([c] + s, key, k)
  {
    if s != [] && !AtLeast(key(c), key(s[0])) {
      var t := s[1..];
      FilterInsert(c, t, key, k);
      assert ([s[0]] + Insert(c, t, key))[1..] == Insert(c, t, key);
      assert ([c] + t)[1..] == t;
      assert ([c] + s)[1..] == s;
      assert key(c) != key(s[0]);
    }
  }

  /** Stability: for every key, the elements carrying that key appear in the ranked list
      in the same relative order as in the input. */
  lemma {:induction false} RankStable<T>(cs: seq<T>, key: T -> SortKey, k: SortKey)
    ensures Filter(Rank(cs, key), key, k) == Filter(cs, key, k)
  {
    if cs != [] {
      var rest := Rank(cs[1..], key);
      RankStable(cs[1..], key, k);
      RankSorted(cs[1..], key);
      FilterInsert(cs[0], rest, key, k);
      assert ([cs[0]] + rest)[1..] == rest;
    }
  }

  /** Ranking a list that is already ranked changes nothing. */
  lemma {:induction false} RankSortedIsIdentity<T>(cs: seq<T>, key: T -> SortKey)
    requires Sorted(cs, key)
    ensures Rank(cs, key) == cs
  {
    if cs != [] {
      assert Sorted(cs[1..], key);
      RankSortedIsIdentity(cs[1..], key);
      assert [cs[0]] + cs[1..] == cs;
    }
  }

  /** Ranking twice is the same as ranking once. */
  lemma RankIdempotent<T>(cs: seq<T>, key: T -> SortKey)
    ensures Rank(Rank(cs, key), key) == Rank(cs, key)
  {
    RankSorted(cs, key);
    RankSortedIsIdentity(Rank(cs, key), key);
  }

  /** The first ranked element, the one the selection prompt starts on, is at least as
      large as every element of the input. */
  lemma TopRanked<T>(cs: seq<T>, key: T -> SortKey)
    requires cs != []
    ensures forall i :: 0 <= i < |cs| ==> AtLeast(key(Rank(cs, key)[0]), key(cs[i]))
  {
    var r := Rank(cs, key);
    RankSorted(cs, key);
    forall i | 0 <= i < |cs|
      ensures AtLeast(key(r[0]), key(cs[i]))
    {
      assert cs[i] in multiset(cs);
      assert cs[i] in multiset(r);
      var j :| 0 <= j < |r| && r[j] == cs[i];
      if j == 0 {
        assert key(r[0]) == key(cs[i]);
      }
    }
  }

  /** Scores 5, 9 and 7 are ranked second, third, first, whatever the other keys: the
      score is compared first. */
  lemma ThreeRanked<T>(c1: T, c2: T, c3: T, key: T -> SortKey)
    requires key(c1).score == 5 && key(c2).score == 9 && key(c3).score == 7
    ensures Rank([c1, c2, c3], key) == [c2, c3, c1]
  {
    assert [c3][1..] == [];
    assert Rank([c3], key) == [c3];
    assert [c2, c3][1..] == [c3];
    assert Rank([c2, c3], key) == [c2, c3];
    assert [c1, c2, c3][1..] == [c2, c3];
    assert Insert(c1, [c3], key) == [c3, c1];
    assert Insert(c1, [c2, c3], key) == [c2] + Insert(c1, [c3], key);
  }

  /** Three search results scored 5, 9 and 7 are ranked second, third, first, whatever
      their resolution and seeders. */
  lemma ScoreExample(c1: Candidate, c2: Candidate, c3: Candidate)
    requires Get(c1, "score") == Int(5) && Get(c2, "score") == Int(9) && Get(c3, "score") == Int(7)
    ensures Rank([c1, c2, c3], KeyOf) == [c2, c3, c1]
  {
    ThreeRanked(c1, c2, c3, KeyOf);
  }
}
