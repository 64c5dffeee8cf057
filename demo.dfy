/** The teaching demonstration: one current market vector compared with four
    scenarios, by Manhattan distance and by cosine similarity, and the label
    each scenario's name earns.

    Features, in order: normalised price, normalised RSI, sentiment, trend. */
module CosineDemo {
  import opened Vectors

  /** The current market (`situacion_actual`). */
  const CurrentMarket: Vector := [0.80, 0.60, 0.70, 1.00]

  datatype Scenario = Scenario(name: string, vector: Vector)

  /** `situaciones_historicas`, in insertion order. */
  const Scenarios: seq<Scenario> := [
    Scenario("Escenario A (MUY SIMILAR)", [0.85, 0.55, 0.75, 0.95]),
    Scenario("Escenario B (SIMILAR)", [0.75, 0.65, 0.65, 0.90]),
    Scenario("Escenario C (DIFERENTE)", [0.30, 0.20, 0.15, 0.10]),
    Scenario("Escenario D (OPUESTO)", [0.20, 0.40, 0.30, 0.00])
  ]

  // ---------------------------------------------------------------------
  // Manhattan distance

  /** The sum of absolute component differences. */
  function Manhattan(a: Vector, b: Vector): (r: real)
    requires |a| == |b|
    ensures r >= 0.0
    ensures |a| > 0 ==> r >= Abs(a[0] - b[0])
  {
    if |a| == 0 then 0.0 else Abs(a[0] - b[0]) + Manhattan(a[1..], b[1..])
  }

  lemma {:induction false} ManhattanSymmetric(a: Vector, b: Vector)
    requires |a| == |b|
    ensures Manhattan(a, b) == Manhattan(b, a)
  {
    if |a| > 0 {
      ManhattanSymmetric(a[1..], b[1..]);
      assert Abs(a[0] - b[0]) == Abs(b[0] - a[0]);
    }
  }

  /** The distance is zero exactly for identical vectors. */
  lemma {:induction false} ManhattanZero(a: Vector, b: Vector)
    requires |a| == |b|
    ensures Manhattan(a, b) == 0.0 <==> a == b
  {
    if |a| > 0 {
      ManhattanZero(a[1..], b[1..]);
      assert a == [a[0]] + a[1..] && b == [b[0]] + b[1..];
    }
  }

  lemma {:induction false} ManhattanTriangle(a: Vector, b: Vector, c: Vector)
    requires |a| == |b| == |c|
    ensures Manhattan(a, c) <= Manhattan(a, b) + Manhattan(b, c)
  {
    if |a| > 0 {
      ManhattanTriangle(a[1..], b[1..], c[1..]);
    }
  }

  // ---------------------------------------------------------------------
  // The label rule

  /** `sub` occurs at the start of `s`. */
  predicate StartsWith(s: string, sub: string)
  {
    |sub| <= |s| && s[..|sub|] == sub
  }

  /** Python's `sub in s` on strings. */
  predicate Contains(s: string, sub: string)
    ensures |sub| == 0 ==> Contains(s, sub)
    ensures Contains(s, sub) ==> |sub| <= |s|
    decreases |s|
  {
    StartsWith(s, sub) || (|s| > 0 && Contains(s[1..], sub))
  }

  /** `sub` occurs in `s` at position `i`. */
  predicate OccursAt(s: string, sub: string, i: int)
  {
    0 <= i && i + |sub| <= |s| && s[i..i + |sub|] == sub
  }

  /** `Contains` agrees with the direct definition: `sub` occurs at some
      position of `s`. */
  lemma {:induction false} ContainsIffOccurs(s: string, sub: string)
    ensures Contains(s, sub) <==> exists i :: OccursAt(s, sub, i)
    decreases |s|
  {
    if StartsWith(s, sub) {
      assert OccursAt(s, sub, 0);
    }
    if |s| > 0 {
      ContainsIffOccurs(s[1..], sub);
      if Contains(s[1..], sub) {
        var i :| OccursAt(s[1..], sub, i);
        assert s[i + 1..i + 1 + |sub|] == s[1..][i..i + |sub|];
        assert OccursAt(s, sub, i + 1);
      }
      if exists i :: OccursAt(s, sub, i) {
        var i :| OccursAt(s, sub, i);
        if i > 0 {
          assert s[1..][i - 1..i - 1 + |sub|] == s[i..i + |sub|];
          assert OccursAt(s[1..], sub, i - 1);
        }
      }
    }
  }

  datatype Label = Comprar | Vender | Mantener

  /** The recommendation printed for a scenario, decided by its name alone. */
  function LabelOf(name: string): (r: Label)
    ensures r == Comprar <==> Contains(name, "SIMILAR")
    ensures r == Vender <==> !Contains(name, "SIMILAR") && (Contains(name, "DIFERENTE") || Contains(name, "OPUESTO"))
    ensures r == Mantener <==> !Contains(name, "SIMILAR") && !Contains(name, "DIFERENTE") && !Contains(name, "OPUESTO")
  {
    if Contains(name, "SIMILAR") then Comprar
    else if Contains(name, "DIFERENTE") || Contains(name, "OPUESTO") then Vender
    else Mantener
  }

  /** A name that precedence sends to COMPRAR even when it also names
      DIFERENTE or OPUESTO: the first test wins. */
  lemma LabelPrecedence(name: string)
    requires Contains(name, "SIMILAR") && Contains(name, "OPUESTO")
    ensures LabelOf(name) == Comprar
  {
  }

  /** A string lacking one character of `sub` does not contain `sub`. */
  lemma CharAbsent(s: string, sub: string, k: int)
    requires 0 <= k < |sub| && sub[k] !in s
    ensures !Contains(s, sub)
  {
    forall i | 0 <= i && i + |sub| <= |s|
      ensures !OccursAt(s, sub, i)
    {
      assert s[i + k] in s;
      assert s[i..i + |sub|][k] == s[i + k] != sub[k];
    }
    ContainsIffOccurs(s, sub);
  }

  /** The labels of the four scenarios: the two similar ones are COMPRAR, the
      different and the opposite one VENDER; no scenario gets MANTENER. */
  lemma ScenarioLabels()
    ensures |Scenarios| == 4
    ensures LabelOf(Scenarios[0].name) == Comprar && LabelOf(Scenarios[1].name) == Comprar
    ensures LabelOf(Scenarios[2].name) == Vender && LabelOf(Scenarios[3].name) == Vender
  {
    SimilarScenarios(Scenarios[0].name, Scenarios[1].name);
    ContraryScenarios(Scenarios[2].name, Scenarios[3].name);
  }

  /** Scenarios A and B name SIMILAR: COMPRAR. */
  lemma SimilarScenarios(a: string, b: string)
    requires a == "Escenario A (MUY SIMILAR)" && b == "Escenario B (SIMILAR)"
    ensures LabelOf(a) == Comprar && LabelOf(b) == Comprar
  {
    SimilarName(a, 17);
    SimilarName(b, 13);
  }

  /** Scenarios C and D name DIFERENTE and OPUESTO but not SIMILAR: VENDER. */
  lemma ContraryScenarios(c: string, d: string)
    requires c == "Escenario C (DIFERENTE)" && d == "Escenario D (OPUESTO)"
    ensures LabelOf(c) == Vender && LabelOf(d) == Vender
  {
    CharAbsent(c, "SIMILAR", 2);
    CharAbsent(d, "SIMILAR", 2);
    ContraryName(c, "DIFERENTE", 13);
    ContraryName(d, "OPUESTO", 13);
  }

  /** A name with SIMILAR at position `i` is labelled COMPRAR. */
  lemma SimilarName(s: string, i: int)
    requires OccursAt(s, "SIMILAR", i)
    ensures LabelOf(s) == Comprar
  {
    Occurs(s, "SIMILAR", i);
  }

  /** A name without SIMILAR and with DIFERENTE or OPUESTO at position `i`
      is labelled VENDER. */
  lemma ContraryName(s: string, word: string, i: int)
    requires !Contains(s, "SIMILAR") && (word == "DIFERENTE" || word == "OPUESTO") && OccursAt(s, word, i)
    ensures LabelOf(s) == Vender
  {
    Occurs(s, word, i);
  }

  lemma Occurs(s: string, sub: string, i: int)
    requires OccursAt(s, sub, i)
    ensures Contains(s, sub)
  {
    ContainsIffOccurs(s, sub);
  }

  // ---------------------------------------------------------------------
  // The numbers of the comparison table

  /** Every vector of the demo is non-negative and non-zero, with the
      dimension of the current market. */
  lemma DemoVectorsComparable()
    ensures NonNegative(CurrentMarket) && NormSq(CurrentMarket) == 2.49
    ensures forall i :: 0 <= i < |Scenarios| ==>
              |Scenarios[i].vector| == |CurrentMarket| && NonNegative(Scenarios[i].vector) &&
              NormSq(Scenarios[i].vector) > 0.0
  {
    forall i | 0 <= i < |Scenarios|
      ensures |Scenarios[i].vector| == |CurrentMarket| && NonNegative(Scenarios[i].vector) &&
              NormSq(Scenarios[i].vector) > 0.0
    {
      HeadSquarePositive(Scenarios[i].vector);
    }
  }

  /** Manhattan distance from the current market: 0.20 for A, 0.25 for B,
      2.35 for C and 2.20 for D. */
  lemma ManhattanValues()
    ensures Manhattan(CurrentMarket, Scenarios[0].vector) == 0.20
    ensures Manhattan(CurrentMarket, Scenarios[1].vector) == 0.25
    ensures Manhattan(CurrentMarket, Scenarios[2].vector) == 2.35
    ensures Manhattan(CurrentMarket, Scenarios[3].vector) == 2.20
  {
  }

  /** Scenario A has the current market's length, so its cosine is the
      exact ratio 2.485 / 2.49 whatever the norms are. */
  lemma CosineOfA(nc: real, na: real)
    requires IsNorm(nc, CurrentMarket) && IsNorm(na, Scenarios[0].vector)
    ensures Cosine(CurrentMarket, Scenarios[0].vector, nc, na) == 2.485 / 2.49
  {
    DemoVectorsComparable();
    var a := Scenarios[0].vector;
    NormUnique(nc, na, CurrentMarket);
    var r := Cosine(CurrentMarket, a, nc, na);
    assert Dot(CurrentMarket, a) == 2.485;
    assert r * 2.49 == 2.485;
    DivUnique(2.485, 2.49, r);
  }

  /** The cosine ranking key of each scenario against the current market,
      pinned down by its defining equation. */
  lemma ScenarioKeys()
    ensures SimilarityKey(CurrentMarket, Scenarios[0].vector) > SimilarityKey(CurrentMarket, Scenarios[1].vector) >
            SimilarityKey(CurrentMarket, Scenarios[2].vector) > SimilarityKey(CurrentMarket, Scenarios[3].vector)
  {
    DemoVectorsComparable();
    var c := CurrentMarket;
    assert Dot(c, Scenarios[0].vector) == 2.485 && NormSq(Scenarios[0].vector) == 2.49;
    assert Dot(c, Scenarios[1].vector) == 2.345 && NormSq(Scenarios[1].vector) == 2.2175;
    assert Dot(c, Scenarios[2].vector) == 0.565 && NormSq(Scenarios[2].vector) == 0.1625;
    assert Dot(c, Scenarios[3].vector) == 0.61 && NormSq(Scenarios[3].vector) == 0.29;
  }

  /** Whatever the norms, the cosine similarity ranks the scenarios
      A > B > C > D. */
  lemma ScenarioCosineOrder(nc: real, na: real, nb: real, nC: real, nD: real)
    requires IsNorm(nc, CurrentMarket) && IsNorm(na, Scenarios[0].vector) && IsNorm(nb, Scenarios[1].vector)
    requires IsNorm(nC, Scenarios[2].vector) && IsNorm(nD, Scenarios[3].vector)
    ensures Cosine(CurrentMarket, Scenarios[0].vector, nc, na) > Cosine(CurrentMarket, Scenarios[1].vector, nc, nb)
    ensures Cosine(CurrentMarket, Scenarios[1].vector, nc, nb) > Cosine(CurrentMarket, Scenarios[2].vector, nc, nC)
    ensures Cosine(CurrentMarket, Scenarios[2].vector, nc, nC) > Cosine(CurrentMarket, Scenarios[3].vector, nc, nD)
  {
    DemoVectorsComparable();
    ScenarioKeys();
    var c, a, b, cc, d := CurrentMarket, Scenarios[0].vector, Scenarios[1].vector, Scenarios[2].vector, Scenarios[3].vector;
    KeyOrderIsCosineOrder(c, b, a, nc, nb, na);
    KeyOrderIsCosineOrder(c, cc, b, nc, nC, nb);
    KeyOrderIsCosineOrder(c, d, cc, nc, nD, nC);
  }

  /** The point the demonstration makes: Manhattan distance puts the opposite
      scenario D nearer than the different scenario C, while the cosine puts
      C nearer than D; on A and B the two metrics agree. */
  lemma MetricsDisagree(nc: real, na: real, nb: real, nC: real, nD: real)
    requires IsNorm(nc, CurrentMarket) && IsNorm(na, Scenarios[0].vector) && IsNorm(nb, Scenarios[1].vector)
    requires IsNorm(nC, Scenarios[2].vector) && IsNorm(nD, Scenarios[3].vector)
    ensures Manhattan(CurrentMarket, Scenarios[3].vector) < Manhattan(CurrentMarket, Scenarios[2].vector)
    ensures Cosine(CurrentMarket, Scenarios[2].vector, nc, nC) > Cosine(CurrentMarket, Scenarios[3].vector, nc, nD)
    ensures Manhattan(CurrentMarket, Scenarios[0].vector) < Manhattan(CurrentMarket, Scenarios[1].vector)
    ensures Cosine(CurrentMarket, Scenarios[0].vector, nc, na) > Cosine(CurrentMarket, Scenarios[1].vector, nc, nb)
  {
    ManhattanValues();
    DemoVectorsComparable();
    ScenarioKeys();
    KeyOrderIsCosineOrder(CurrentMarket, Scenarios[3].vector, Scenarios[2].vector, nc, nD, nC);
    KeyOrderIsCosineOrder(CurrentMarket, Scenarios[1].vector, Scenarios[0].vector, nc, nb, na);
  }
}
