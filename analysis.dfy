/** The recommender run on its own reference data: the current situation is
    nearest to USUARIO_01 (market with fear over a geopolitical crisis), and
    the recommendation is that situation's action, VENDER_FUERTE. */
module Analysis {
  import opened Tables
  import opened Vectors
  import opened Market
  import opened Ranking
  import opened Recommender
  import opened Seed

  /** Every past situation can be compared with the current one. */
  lemma SeedComparable()
    ensures Comparable(Current, Situations)
  {
    VectorsWellFormed();
  }

  /** Every situation has a recorded action, every recorded action belongs to
      a situation and names a known action. */
  lemma SeedIntegrity()
    ensures Integrity(Situations, History, Actions)
  {
    assert forall i :: 0 <= i < |Situations| ==> History[i].key == Situations[i].key;
    forall i | 0 <= i < |History|
      ensures HasKey(Actions, History[i].value)
    {
      var j := if i == 0 then 4 else if i == 1 || i == 3 then 0 else if i == 2 then 2
               else if i == 4 then 3 else if i == 5 then 1 else 5;
      assert Actions[j].key == History[i].value;
    }
  }

  /** USUARIO_01 is strictly more similar to the current situation than
      every other past situation (its cosine is about 0.9936; the runner-up,
      USUARIO_05, about 0.9794). */
  lemma FirstSituationNearest(i: int)
    requires 1 <= i < |Situations|
    ensures NormSq(Current) > 0.0 && NormSq(Situations[0].value.vector) > 0.0 && NormSq(Situations[i].value.vector) > 0.0 &&
            SimilarityKey(Current, Situations[i].value.vector) < SimilarityKey(Current, Situations[0].value.vector)
  {
    if i == 1 {
      Situation2BelowFirst();
    } else if i == 2 {
      Situation3BelowFirst();
    } else if i == 3 {
      Situation4BelowFirst();
    } else if i == 4 {
      Situation5BelowFirst();
    } else if i == 5 {
      Situation6BelowFirst();
    } else {
      Situation7BelowFirst();
    }
  }

  /** The key of USUARIO_01: 2.3275^2 / (2.1625 * 2.5375). */
  lemma FirstKey()
    ensures NormSq(Current) == 2.1625 && NormSq(Situations[0].value.vector) == 2.5375
    ensures SimilarityKey(Current, Situations[0].value.vector) * (2.1625 * 2.5375) == 2.3275 * 2.3275
  {
    assert Dot(Current, Situations[0].value.vector) == 2.3275;
  }

  lemma Situation2BelowFirst()
    ensures NormSq(Current) > 0.0 && NormSq(Situations[0].value.vector) > 0.0 && NormSq(Situations[1].value.vector) > 0.0 &&
            SimilarityKey(Current, Situations[1].value.vector) < SimilarityKey(Current, Situations[0].value.vector)
  {
    FirstKey();
    var v := Situations[1].value.vector;
    assert Dot(Current, v) == 1.4975 && NormSq(v) == 2.1775;
    assert SimilarityKey(Current, v) * (2.1625 * 2.1775) == 1.4975 * 1.4975;
  }

  lemma Situation3BelowFirst()
    ensures NormSq(Current) > 0.0 && NormSq(Situations[0].value.vector) > 0.0 && NormSq(Situations[2].value.vector) > 0.0 &&
            SimilarityKey(Current, Situations[2].value.vector) < SimilarityKey(Current, Situations[0].value.vector)
  {
    FirstKey();
    var v := Situations[2].value.vector;
    assert Dot(Current, v) == 2.2075 && NormSq(v) == 2.485;
    assert SimilarityKey(Current, v) * (2.1625 * 2.485) == 2.2075 * 2.2075;
  }

  lemma Situation4BelowFirst()
    ensures NormSq(Current) > 0.0 && NormSq(Situations[0].value.vector) > 0.0 && NormSq(Situations[3].value.vector) > 0.0 &&
            SimilarityKey(Current, Situations[3].value.vector) < SimilarityKey(Current, Situations[0].value.vector)
  {
    FirstKey();
    var v := Situations[3].value.vector;
    assert Dot(Current, v) == 1.695 && NormSq(v) == 2.55;
    assert SimilarityKey(Current, v) * (2.1625 * 2.55) == 1.695 * 1.695;
  }

  lemma Situation5BelowFirst()
    ensures NormSq(Current) > 0.0 && NormSq(Situations[0].value.vector) > 0.0 && NormSq(Situations[4].value.vector) > 0.0 &&
            SimilarityKey(Current, Situations[4].value.vector) < SimilarityKey(Current, Situations[0].value.vector)
  {
    FirstKey();
    var v := Situations[4].value.vector;
    assert Dot(Current, v) == 1.9175 && NormSq(v) == 1.7725;
    assert SimilarityKey(Current, v) * (2.1625 * 1.7725) == 1.9175 * 1.9175;
  }

  lemma Situation6BelowFirst()
    ensures NormSq(Current) > 0.0 && NormSq(Situations[0].value.vector) > 0.0 && NormSq(Situations[5].value.vector) > 0.0 &&
            SimilarityKey(Current, Situations[5].value.vector) < SimilarityKey(Current, Situations[0].value.vector)
  {
    FirstKey();
    var v := Situations[5].value.vector;
    assert Dot(Current, v) == 1.59 && NormSq(v) == 2.2525;
    assert SimilarityKey(Current, v) * (2.1625 * 2.2525) == 1.59 * 1.59;
  }

  lemma Situation7BelowFirst()
    ensures NormSq(Current) > 0.0 && NormSq(Situations[0].value.vector) > 0.0 && NormSq(Situations[6].value.vector) > 0.0 &&
            SimilarityKey(Current, Situations[6].value.vector) < SimilarityKey(Current, Situations[0].value.vector)
  {
    FirstKey();
    var v := Situations[6].value.vector;
    assert Dot(Current, v) == 2.215 && NormSq(v) == 2.4875;
    assert SimilarityKey(Current, v) * (2.1625 * 2.4875) == 2.215 * 2.215;
  }

  /** The first situation is the first nearest one. */
  lemma SeedNearest()
    ensures Comparable(Current, Situations) && FirstNearest(Current, Situations, 0)
  {
    SeedComparable();
    forall i | 1 <= i < |Situations|
      ensures SimilarityKey(Current, Situations[i].value.vector) < SimilarityKey(Current, Situations[0].value.vector)
    {
      FirstSituationNearest(i);
    }
  }

  /** The ranking of the script's data lists each of the seven situations
      exactly once. */
  lemma SeedRanking()
    ensures Comparable(Current, Situations) && |Rank(ScoreTable(Current, Situations))| == 7
    ensures forall id :: HasKey(Rank(ScoreTable(Current, Situations)), id) <==> HasKey(Situations, id)
  {
    SeedComparable();
    SeedKeysDistinct();
    RankedIds(Current, Situations);
  }

  /** The analysis of the current situation recommends VENDER_FUERTE, the
      action that worked in USUARIO_01: sell oil aggressively. */
  lemma SeedRecommendation()
    ensures Comparable(Current, Situations) &&
            Recommend(Current, Situations, History, Actions) ==
              Success(Recommendation(MercadoConMiedo, ScoreOf(Current, Situations[0].value), VenderFuerte, Actions[4].value))
    ensures Actions[4].value.action == "VENDER PETRÓLEO" && Actions[4].value.level == "AGRESIVO"
  {
    SeedNearest();
    SeedKeysDistinct();
    RecommendIsNearest(Current, Situations, History, Actions, 0);
    assert Lookup(History, MercadoConMiedo) == Some(VenderFuerte);
    assert Lookup(Actions, VenderFuerte) == Some(Actions[4].value);
  }
}
