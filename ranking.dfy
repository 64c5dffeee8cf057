/** Scoring every past situation against the current one, and ranking the
    scores from most to least similar.

    The score stored for a situation is `SimilarityKey(query, v)`, the exact
    value cos * |cos| of the cosine similarity; it orders situations, and
    groups them into ties, exactly as the cosine does
    (`Vectors.KeyOrderIsCosineOrder`). */
module Ranking {
  import opened Tables
  import opened Vectors
  import opened Market

  /** One entry of the score table (`similitudes[id]`): the similarity and
      the fields copied from the situation. */
  datatype Scored = Scored(similarity: real, description: string, context: string, vector: Vector)

  type Entry = Binding<Scored>

  function Score(e: Entry): (r: real)
  {
    e.value.similarity
  }

  /** Every situation can be compared with the query: the vectors have the
      same dimension and neither is the zero vector. */
  predicate Comparable(query: Vector, library: Table<Situation>)
  {
    NormSq(query) > 0.0 &&
    forall i :: 0 <= i < |library| ==> |library[i].value.vector| == |query| && NormSq(library[i].value.vector) > 0.0
  }

  /** The score-table entry for one situation. */
  function ScoreOf(query: Vector, s: Situation): (r: Scored)
    requires |s.vector| == |query| && NormSq(query) > 0.0 && NormSq(s.vector) > 0.0
  {
    Scored(SimilarityKey(query, s.vector), s.description, s.context, s.vector)
  }

  /** The score table after visiting the situations in order, assigning one
      entry per situation id (`similitudes[id] = {...}`). */
  function ScoreTable(query: Vector, library: Table<Situation>): (r: Table<Scored>)
    requires Comparable(query, library)
    ensures |r| <= |library| && (|library| > 0 ==> |r| > 0)
    decreases |library|
  {
    if |library| == 0 then []
    else
      var n := |library| - 1;
      assert Comparable(query, library[..n]);
      Put(ScoreTable(query, library[..n]), library[n].key, ScoreOf(query, library[n].value))
  }

  /** `t` holds one entry per situation of `library`, in order, each with
      that situation's score. */
  predicate Entrywise(query: Vector, library: Table<Situation>, t: Table<Scored>)
    requires Comparable(query, library)
  {
    |t| == |library| &&
    forall i :: 0 <= i < |library| ==> t[i] == Binding(library[i].key, ScoreOf(query, library[i].value))
  }

  /** With distinct situation ids (as in any dict) the score table has exactly
      one entry per situation, in the situations' order, each holding that
      situation's score. */
  lemma {:induction false} ScoreTableEntrywise(query: Vector, library: Table<Situation>)
    requires Comparable(query, library) && DistinctKeys(library)
    ensures Entrywise(query, library, ScoreTable(query, library))
  {
    if |library| > 0 {
      var n := |library| - 1;
      var prefix := library[..n];
      PrefixComparable(query, library, n);
      assert DistinctKeys(prefix) by {
        assert forall i :: 0 <= i < n ==> prefix[i] == library[i];
      }
      ScoreTableEntrywise(query, prefix);
      var t := ScoreTable(query, prefix);
      FreshLastKey(query, library, t);
      ExtendEntrywise(query, library, t);
    }
  }

  lemma PrefixComparable(query: Vector, library: Table<Situation>, n: int)
    requires Comparable(query, library) && 0 <= n <= |library|
    ensures Comparable(query, library[..n])
  {
    assert forall i :: 0 <= i < n ==> library[..n][i] == library[i];
  }

  /** The last situation's id is not yet in the table of the others. */
  lemma FreshLastKey(query: Vector, library: Table<Situation>, t: Table<Scored>)
    requires Comparable(query, library) && DistinctKeys(library) && |library| > 0
    requires Comparable(query, library[..|library| - 1]) && Entrywise(query, library[..|library| - 1], t)
    ensures !HasKey(t, library[|library| - 1].key)
  {
    var n := |library| - 1;
    forall j | 0 <= j < |t|
      ensures t[j].key != library[n].key
    {
      assert t[j].key == library[..n][j].key == library[j].key;
    }
  }

  lemma ExtendEntrywise(query: Vector, library: Table<Situation>, t: Table<Scored>)
    requires Comparable(query, library) && |library| > 0
    requires Comparable(query, library[..|library| - 1]) && Entrywise(query, library[..|library| - 1], t)
    requires t == ScoreTable(query, library[..|library| - 1]) && !HasKey(t, library[|library| - 1].key)
    ensures Entrywise(query, library, ScoreTable(query, library))
  {
    var n := |library| - 1;
    var r := ScoreTable(query, library);
    assert r == t + [Binding(library[n].key, ScoreOf(query, library[n].value))];
    forall i | 0 <= i < n
      ensures r[i] == Binding(library[i].key, ScoreOf(query, library[i].value))
    {
      assert library[..n][i] == library[i];
    }
  }

  /** Every key of the score table is the id of a situation. */
  lemma {:induction false} ScoreTableKeys(query: Vector, library: Table<Situation>)
    requires Comparable(query, library)
    ensures forall m :: 0 <= m < |ScoreTable(query, library)| ==> HasKey(library, ScoreTable(query, library)[m].key)
  {
    if |library| > 0 {
      var n := |library| - 1;
      var prefix := library[..n];
      assert Comparable(query, prefix);
      ScoreTableKeys(query, prefix);
      var t := ScoreTable(query, prefix);
      var r := ScoreTable(query, library);
      forall m | 0 <= m < |r|
        ensures HasKey(library, r[m].key)
      {
        if !HasKey(t, library[n].key) {
          assert r == t + [Binding(library[n].key, ScoreOf(query, library[n].value))];
          if m < |t| {
            var i :| 0 <= i < |prefix| && prefix[i].key == t[m].key;
            assert library[i] == prefix[i];
          } else {
            assert library[n].key == r[m].key;
          }
        } else {
          assert Keys(r) == Keys(t);
          assert Keys(r)[m] == r[m].key && Keys(t)[m] == t[m].key;
          var i :| 0 <= i < |prefix| && prefix[i].key == t[m].key;
          assert library[i] == prefix[i];
        }
      }
    }
  }

  /** The scoring loop: visits the situations in insertion order and records
      one entry per situation. */
  method ScoreSituations(query: Vector, library: Table<Situation>) returns (similarities: Table<Scored>)
    requires Comparable(query, library)
    ensures similarities == ScoreTable(query, library)
    ensures DistinctKeys(library) ==> Entrywise(query, library, similarities)
  {
    similarities := [];
    var i := 0;
    while i < |library|
      invariant 0 <= i <= |library|
      invariant Comparable(query, library[..i])
      invariant similarities == ScoreTable(query, library[..i])
    {
      var entry := library[i];
      assert library[..i + 1][..i] == library[..i];
      similarities := Put(similarities, entry.key, ScoreOf(query, entry.value));
      i := i + 1;
    }
    assert library[..i] == library;
    if DistinctKeys(library) {
      ScoreTableEntrywise(query, library);
    }
  }

  // ---------------------------------------------------------------------
  // Ranking: sorted(similitudes.items(), key=similarity, reverse=True)

  /** Places `x` in front of the first entry that does not score higher, so
      `x` stays ahead of the entries it ties with. */
  function Insert(x: Entry, ys: seq<Entry>): (r: seq<Entry>)
    ensures |r| == |ys| + 1
  {
    if |ys| == 0 || Score(x) >= Score(ys[0]) then [x] + ys
    else [ys[0]] + Insert(x, ys[1..])
  }

  /** The ranking: a stable sort by descending score. */
  function Rank(xs: seq<Entry>): (r: seq<Entry>)
    ensures |r| == |xs|
  {
    if |xs| == 0 then [] else Insert(xs[0], Rank(xs[1..]))
  }

  predicate SortedDescending(s: seq<Entry>)
  {
    forall i, j :: 0 <= i < j < |s| ==> Score(s[i]) >= Score(s[j])
  }

  /** The entries scoring exactly `s`, in their order. */
  function Filter(xs: seq<Entry>, s: real): (r: seq<Entry>)
  {
    if |xs| == 0 then []
    else if Score(xs[0]) == s then [xs[0]] + Filter(xs[1..], s)
    else Filter(xs[1..], s)
  }

  lemma {:induction false} InsertPermutation(x: Entry, ys: seq<Entry>)
    ensures multiset(Insert(x, ys)) == multiset(ys) + multiset{x}
  {
    if |ys| > 0 && Score(x) < Score(ys[0]) {
      InsertPermutation(x, ys[1..]);
      assert ys == [ys[0]] + ys[1..];
    }
  }

  /** Inserting below a bound that every entry respects keeps the bound. */
  lemma {:induction false} InsertBounded(x: Entry, ys: seq<Entry>, bound: real)
    requires Score(x) <= bound && forall i :: 0 <= i < |ys| ==> Score(ys[i]) <= bound
    ensures forall i :: 0 <= i < |Insert(x, ys)| ==> Score(Insert(x, ys)[i]) <= bound
  {
    if |ys| > 0 && Score(x) < Score(ys[0]) {
      InsertBounded(x, ys[1..], bound);
    }
  }

  lemma {:induction false} InsertSorted(x: Entry, ys: seq<Entry>)
    requires SortedDescending(ys)
    ensures SortedDescending(Insert(x, ys))
  {
    if |ys| > 0 && Score(x) < Score(ys[0]) {
      var rest := Insert(x, ys[1..]);
      InsertSorted(x, ys[1..]);
      InsertBounded(x, ys[1..], Score(ys[0]));
      var r := [ys[0]] + rest;
      assert forall j :: 0 < j < |r| ==> r[j] == rest[j - 1];
    }
  }

  /** Every entry of the input appears in the ranking as often as in the input. */
  lemma {:induction false} RankPermutation(xs: seq<Entry>)
    ensures multiset(Rank(xs)) == multiset(xs)
  {
    if |xs| > 0 {
      RankPermutation(xs[1..]);
      InsertPermutation(xs[0], Rank(xs[1..]));
      assert xs == [xs[0]] + xs[1..];
    }
  }

  /** The ranking never increases in score. */
  lemma {:induction false} RankSorted(xs: seq<Entry>)
    ensures SortedDescending(Rank(xs))
  {
    if |xs| > 0 {
      RankSorted(xs[1..]);
      InsertSorted(xs[0], Rank(xs[1..]));
    }
  }

  lemma FilterCons(x: Entry, xs: seq<Entry>, s: real)
    ensures Filter([x] + xs, s) == if Score(x) == s then [x] + Filter(xs, s) else Filter(xs, s)
  {
    assert ([x] + xs)[0] == x && ([x] + xs)[1..] == xs;
  }

  lemma {:induction false} InsertStable(x: Entry, ys: seq<Entry>, s: real)
    ensures Filter(Insert(x, ys), s) == Filter([x] + ys, s)
  {
    if |ys| > 0 && Score(x) < Score(ys[0]) {
      var rest := ys[1..];
      InsertStable(x, rest, s);
      FilterCons(ys[0], Insert(x, rest), s);
      FilterCons(x, rest, s);
      FilterCons(x, ys, s);
      FilterCons(ys[0], rest, s);
      assert ys == [ys[0]] + rest;
    }
  }

  /** Stability: entries with equal scores keep their input order. */
  lemma {:induction false} RankStable(xs: seq<Entry>, s: real)
    ensures Filter(Rank(xs), s) == Filter(xs, s)
  {
    if |xs| > 0 {
      var rest := xs[1..];
      RankStable(rest, s);
      InsertStable(xs[0], Rank(rest), s);
      FilterCons(xs[0], Rank(rest), s);
      FilterCons(xs[0], rest, s);
      assert xs == [xs[0]] + rest;
    }
  }

  /** The head of the ranking is an input entry whose score is at least every
      input entry's score. */
  lemma RankHeadIsMaximal(xs: seq<Entry>)
    requires |xs| > 0
    ensures |Rank(xs)| > 0 && Rank(xs)[0] in xs
    ensures forall i :: 0 <= i < |xs| ==> Score(xs[i]) <= Score(Rank(xs)[0])
  {
    RankPermutation(xs);
    RankSorted(xs);
    var r := Rank(xs);
    assert xs[0] in multiset(r);
    assert r[0] in multiset(xs);
    forall i | 0 <= i < |xs|
      ensures Score(xs[i]) <= Score(r[0])
    {
      assert xs[i] in multiset(r);
      var j :| 0 <= j < |r| && r[j] == xs[i];
    }
  }

  lemma {:induction false} FilterFirst(xs: seq<Entry>, k: int)
    requires 0 <= k < |xs| && forall i :: 0 <= i < k ==> Score(xs[i]) != Score(xs[k])
    ensures |Filter(xs, Score(xs[k]))| > 0 && Filter(xs, Score(xs[k]))[0] == xs[k]
  {
    if k > 0 {
      FilterFirst(xs[1..], k - 1);
    }
  }

  /** The head of the ranking is the FIRST input entry of maximal score: among
      tied best entries, the one the scoring loop visited first. */
  lemma RankHeadIsFirstMaximal(xs: seq<Entry>, k: int)
    requires 0 <= k < |xs|
    requires forall i :: 0 <= i < |xs| ==> Score(xs[i]) <= Score(xs[k])
    requires forall i :: 0 <= i < k ==> Score(xs[i]) < Score(xs[k])
    ensures |Rank(xs)| > 0 && Rank(xs)[0] == xs[k]
  {
    var m := Score(xs[k]);
    RankHeadIsMaximal(xs);
    var r := Rank(xs);
    assert Score(r[0]) == m;
    FilterFirst(r, 0);
    FilterFirst(xs, k);
    RankStable(xs, m);
  }

  /** With distinct ids, the ranking lists every situation exactly once: it
      has one entry per situation and holds exactly the situation ids. */
  lemma RankedIds(query: Vector, library: Table<Situation>)
    requires Comparable(query, library) && DistinctKeys(library)
    ensures |Rank(ScoreTable(query, library))| == |library|
    ensures forall id :: HasKey(Rank(ScoreTable(query, library)), id) <==> HasKey(library, id)
  {
    var t := ScoreTable(query, library);
    var r := Rank(t);
    ScoreTableEntrywise(query, library);
    RankPermutation(t);
    assert |r| == |multiset(r)| == |multiset(t)| == |t|;
    forall id
      ensures HasKey(r, id) <==> HasKey(library, id)
    {
      if HasKey(r, id) {
        var j :| 0 <= j < |r| && r[j].key == id;
        assert r[j] in multiset(t);
        var m :| 0 <= m < |t| && t[m] == r[j];
        assert library[m].key == id;
      }
      if HasKey(library, id) {
        var i :| 0 <= i < |library| && library[i].key == id;
        assert t[i] in multiset(r);
        var j :| 0 <= j < |r| && r[j] == t[i];
        assert r[j].key == id;
      }
    }
  }

  /** Every id in the ranking is the id of a situation. */
  lemma RankedKeys(query: Vector, library: Table<Situation>)
    requires Comparable(query, library)
    ensures forall j :: 0 <= j < |Rank(ScoreTable(query, library))| ==>
              HasKey(library, Rank(ScoreTable(query, library))[j].key)
  {
    var table := ScoreTable(query, library);
    var ranking := Rank(table);
    RankPermutation(table);
    ScoreTableKeys(query, library);
    forall j | 0 <= j < |ranking|
      ensures HasKey(library, ranking[j].key)
    {
      assert ranking[j] in multiset(table);
      var m :| 0 <= m < |table| && table[m] == ranking[j];
    }
  }
}
