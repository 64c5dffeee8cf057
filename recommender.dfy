/** Choosing the recommendation: the most similar past situation, the action
    that worked in it, and that action's descriptor. */
module Recommender {
  import opened Tables
  import opened Vectors
  import opened Market
  import opened Ranking

  /** Where the script would stop with an exception. */
  datatype Error =
    | EmptyRanking                 // `similitudes_ordenadas[0]` on an empty list
    | UnknownSituation(id: string) // `historial_exitos[id]` raises KeyError
    | UnknownAction(id: string)    // `novelas_disponibles[id]` raises KeyError

  datatype Result<T> = Success(value: T) | Failure(error: Error)

  datatype Recommendation = Recommendation(
    situationId: string,     // the most similar past situation
    best: Scored,            // its entry of the score table
    actionId: string,        // the action that worked in it
    action: ActionDescriptor)

  /** The reference data is consistent: every situation has an outcome, every
      outcome belongs to a situation, and every outcome is a known action. */
  predicate Integrity(library: Table<Situation>, history: Table<string>, catalog: Table<ActionDescriptor>)
  {
    (forall i :: 0 <= i < |library| ==> HasKey(history, library[i].key)) &&
    (forall i :: 0 <= i < |history| ==> HasKey(library, history[i].key) && HasKey(catalog, history[i].value))
  }

  /** The head of the ranking, the action recorded for it, and that action's
      descriptor; there is no similarity threshold and no fallback. */
  function Select(ranking: seq<Entry>, history: Table<string>, catalog: Table<ActionDescriptor>): (r: Result<Recommendation>)
    ensures r.Success? ==>
              |ranking| > 0 && r.value.situationId == ranking[0].key && r.value.best == ranking[0].value &&
              Lookup(history, r.value.situationId) == Some(r.value.actionId) &&
              Lookup(catalog, r.value.actionId) == Some(r.value.action)
    ensures r == Failure(EmptyRanking) <==> |ranking| == 0
    ensures r.Failure? && |ranking| > 0 ==>
              (r.error == UnknownSituation(ranking[0].key) && !HasKey(history, ranking[0].key)) ||
              (HasKey(history, ranking[0].key) && r.error == UnknownAction(Lookup(history, ranking[0].key).value) &&
               !HasKey(catalog, Lookup(history, ranking[0].key).value))
  {
    if |ranking| == 0 then Failure(EmptyRanking)
    else
      var top := ranking[0];
      match Lookup(history, top.key)
      case None => Failure(UnknownSituation(top.key))
      case Some(actionId) =>
        match Lookup(catalog, actionId)
        case None => Failure(UnknownAction(actionId))
        case Some(action) => Success(Recommendation(top.key, top.value, actionId, action))
  }

  /** The whole analysis: score every situation, rank, select. */
  function Recommend(query: Vector, library: Table<Situation>, history: Table<string>,
                     catalog: Table<ActionDescriptor>): (r: Result<Recommendation>)
    requires Comparable(query, library)
    ensures r == Failure(EmptyRanking) <==> |library| == 0
    ensures r.Success? ==> HasKey(library, r.value.situationId)
  {
    RankedKeys(query, library);
    Select(Rank(ScoreTable(query, library)), history, catalog)
  }

  /** The analysis as the script runs it: the scoring loop, then the ranking
      and the selection. */
  method Analyze(query: Vector, library: Table<Situation>, history: Table<string>,
                 catalog: Table<ActionDescriptor>) returns (r: Result<Recommendation>)
    requires Comparable(query, library)
    ensures r == Recommend(query, library, history, catalog)
  {
    var similarities := ScoreSituations(query, library);
    var ranking := Rank(similarities);
    r := Select(ranking, history, catalog);
  }

  /** Index `k` holds the first situation of greatest similarity to `query`. */
  predicate FirstNearest(query: Vector, library: Table<Situation>, k: int)
    requires Comparable(query, library)
  {
    0 <= k < |library| &&
    (forall i :: 0 <= i < |library| ==>
       SimilarityKey(query, library[i].value.vector) <= SimilarityKey(query, library[k].value.vector)) &&
    (forall i :: 0 <= i < k ==>
       SimilarityKey(query, library[i].value.vector) < SimilarityKey(query, library[k].value.vector))
  }

  /** Every non-empty library has a first nearest situation. */
  lemma {:induction false} FirstNearestExists(query: Vector, library: Table<Situation>)
    requires Comparable(query, library) && |library| > 0
    ensures exists k :: FirstNearest(query, library, k)
  {
    if |library| == 1 {
      assert FirstNearest(query, library, 0);
    } else {
      var n := |library| - 1;
      var prefix := library[..n];
      assert Comparable(query, prefix);
      FirstNearestExists(query, prefix);
      var k :| FirstNearest(query, prefix, k);
      assert forall i :: 0 <= i < n ==> prefix[i] == library[i];
      var key := SimilarityKey(query, library[k].value.vector);
      if SimilarityKey(query, library[n].value.vector) > key {
        assert FirstNearest(query, library, n);
      } else {
        assert FirstNearest(query, library, k);
      }
    }
  }

  /** The recommendation is the outcome of the first nearest situation: its
      id, its score-table entry, the action recorded for it and that action's
      descriptor, or the error the lookups raise. */
  lemma RecommendIsNearest(query: Vector, library: Table<Situation>, history: Table<string>,
                           catalog: Table<ActionDescriptor>, k: int)
    requires Comparable(query, library) && DistinctKeys(library) && FirstNearest(query, library, k)
    ensures Recommend(query, library, history, catalog) ==
              Select([Binding(library[k].key, ScoreOf(query, library[k].value))], history, catalog)
  {
    var table := ScoreTable(query, library);
    ScoreTableEntrywise(query, library);
    RankHeadIsFirstMaximal(table, k);
  }

  /** With consistent reference data and at least one situation, the analysis
      always yields a recommendation, whatever the similarities are. */
  lemma RecommendResolves(query: Vector, library: Table<Situation>, history: Table<string>,
                          catalog: Table<ActionDescriptor>)
    requires Comparable(query, library) && DistinctKeys(library) && |library| > 0
    requires Integrity(library, history, catalog)
    ensures Recommend(query, library, history, catalog).Success?
  {
    FirstNearestExists(query, library);
    var k :| FirstNearest(query, library, k);
    RecommendIsNearest(query, library, history, catalog, k);
    var id := library[k].key;
    assert HasKey(history, id);
    var actionId := Lookup(history, id).value;
    FirstBindingOf(history, id);
    assert HasKey(catalog, actionId) by {
      var m :| 0 <= m < |history| && history[m].key == id && (forall p :: 0 <= p < m ==> history[p].key != id);
      assert actionId == history[m].value;
    }
  }

  /** An empty library leaves nothing to rank. */
  lemma RecommendEmpty(query: Vector, library: Table<Situation>, history: Table<string>,
                       catalog: Table<ActionDescriptor>)
    requires Comparable(query, library) && |library| == 0
    ensures Recommend(query, library, history, catalog) == Failure(EmptyRanking)
  {
  }

  /** Stated with the cosine itself: whatever the norms, no situation is
      closer to the query than the recommended one. */
  lemma NearestByCosine(query: Vector, library: Table<Situation>, k: int, i: int,
                        nq: real, nk: real, ni: real)
    requires Comparable(query, library) && FirstNearest(query, library, k) && 0 <= i < |library|
    requires IsNorm(nq, query) && IsNorm(nk, library[k].value.vector) && IsNorm(ni, library[i].value.vector)
    ensures Cosine(query, library[i].value.vector, nq, ni) <= Cosine(query, library[k].value.vector, nq, nk)
    ensures i < k ==> Cosine(query, library[i].value.vector, nq, ni) < Cosine(query, library[k].value.vector, nq, nk)
  {
    KeyOrderIsCosineOrder(query, library[i].value.vector, library[k].value.vector, nq, ni, nk);
  }

  /** With consistent reference data every ranked situation has a recorded
      action, so the report's per-situation lookup never fails. */
  lemma RankedHaveOutcomes(query: Vector, library: Table<Situation>, history: Table<string>,
                           catalog: Table<ActionDescriptor>)
    requires Comparable(query, library) && Integrity(library, history, catalog)
    ensures forall j :: 0 <= j < |Rank(ScoreTable(query, library))| ==>
              HasKey(history, Rank(ScoreTable(query, library))[j].key)
  {
    RankedKeys(query, library);
  }
}
