# Oil-market recommender by cosine similarity — a Dafny model

The script `codigo.py` treats the oil market like a classic user-based
recommender. Seven historical market situations play the "users". Six
trading actions (buy strong, buy moderate, hold, sell moderate, sell strong,
hedge) play the "items". The history table records which action worked in
each situation.

The script describes the current market as a six-feature vector:

- price trend;
- volatility;
- sentiment;
- demand;
- inventories;
- geopolitical risk.

It then:

1. scores every historical situation by cosine similarity with the current
   vector, in insertion order, building a score table;
2. sorts the table by descending similarity;
3. takes the head of the sorted table;
4. looks up the action that worked in that situation;
5. looks up that action's descriptor.

It also prints a level label (ALTO/MEDIO/BAJO) for each component of the
current situation.

The companion script `demo_cosine_similarity.py` compares one four-feature
market vector with four named scenarios. It uses Manhattan distance and
cosine similarity, and labels each scenario COMPRAR, VENDER or MANTENER
from the words in its name.

The model is split by concern:

| file | module | what it holds |
|---|---|---|
| `tables.dfy` | `Tables` | Python dicts as ordered binding lists: lookup, assignment |
| `vectors.dfy` | `Vectors` | dot product, squared norm, cosine, the ranking key, their algebra |
| `market.dfy` | `Market` | the situation and action records, the level band |
| `seed.dfy` | `Seed` | the script's data tables and current situation |
| `ranking.dfy` | `Ranking` | the scoring loop (a method) and the stable descending sort |
| `recommender.dfy` | `Recommender` | selection, the whole analysis, nearest-neighbour theorems |
| `analysis.dfy` | `Analysis` | the analysis on the script's own data: VENDER_FUERTE |
| `demo.dfy` | `CosineDemo` | Manhattan distance, the label rule and the demo's numbers |

Dafny's reals have no square root, so the model handles norms this way:

- A Euclidean norm enters as a parameter `n`, characterised by
  `IsNorm(n, a)`: `n >= 0` and `n * n` is the sum of squares.
- The score stored in the score table is `SimilarityKey`. This is the exact,
  square-root-free value cos·|cos|.
- `KeyOrderIsCosineOrder` proves that this key orders situations exactly as
  the cosine does. It also groups them into exactly the same ties.
- As a result, the sort, the head and the recommendation are the ones the
  cosine gives.

## Model

| member | source | states |
|---|---|---|
| Tables.Lookup | Desktop/negocios/codigo.py:370-371 | `d[k]` finds a value iff the key is present, and the value is the one bound to the first occurrence of the key |
| Tables.LookupBinding | Desktop/negocios/codigo.py:370-371 | with distinct keys, looking up a binding's key yields that binding's value |
| Tables.FirstBindingOf | Desktop/negocios/codigo.py:370-371 | a present key has a first binding, and the lookup returns that binding's value |
| Tables.Put | Desktop/negocios/codigo.py:329-334 | `d[k] = v` appends a new key at the end and leaves the key sequence unchanged when the key exists |
| Tables.PutThenLookup | Desktop/negocios/codigo.py:329-334 | after `d[k] = v`, `d[k]` is `v` and every other key reads as before |
| Vectors.Dot | Desktop/negocios/demo_cosine_similarity.py:44 | `np.dot` on equal-length vectors; its contract is carried by `DotSymmetric`, `DotScale`, `DotNonNegative`, `DotSelfNonNegative` and `CauchySchwarz` |
| Vectors.NormSq | Desktop/negocios/demo_cosine_similarity.py:45-46 | the squared Euclidean norm is never negative |
| Vectors.DotSelfNonNegative | Desktop/negocios/demo_cosine_similarity.py:44 | a vector's dot product with itself is never negative |
| Vectors.NormUnique | Desktop/negocios/demo_cosine_similarity.py:45-46 | a vector has only one Euclidean norm |
| Vectors.NormPositive | Desktop/negocios/demo_cosine_similarity.py:45-46 | a non-zero vector has a positive norm |
| Vectors.NormSqZero | Desktop/negocios/demo_cosine_similarity.py:45-46 | the squared norm is zero exactly when every component is zero |
| Vectors.HeadSquarePositive | Desktop/negocios/demo_cosine_similarity.py:45-46 | a vector with a non-zero first component has a positive squared norm |
| Vectors.Cosine | Desktop/negocios/demo_cosine_similarity.py:44-47 | the cosine times the product of the norms is the dot product; it lies in [-1, 1]; its signed square is the ranking key |
| Vectors.CauchySchwarz | Desktop/negocios/codigo.py:300-313 | (a·b)² ≤ \|a\|²·\|b\|², the inequality that bounds the cosine |
| Vectors.CosineBounded | Desktop/negocios/codigo.py:300-313 | the cosine lies in [-1, 1] ("1.0 = identical, -1.0 = opposite") |
| Vectors.CosineKey | Desktop/negocios/codigo.py:327 | whatever the norms, the signed square cos·\|cos\| of the cosine is the ranking key `SimilarityKey`, the square-root-free value the score table stores |
| Vectors.KeyOrderIsCosineOrder | Desktop/negocios/codigo.py:337 | the keys of two situations compare, and tie, exactly as their cosines do |
| Vectors.DotSymmetric | Desktop/negocios/demo_cosine_similarity.py:44 | the dot product is symmetric |
| Vectors.CosineSymmetric | Desktop/negocios/demo_cosine_similarity.py:44-47 | cosine and ranking key are symmetric in their two vectors |
| Vectors.DotScale | Desktop/negocios/codigo.py:300-313 | scaling one vector scales the dot product by the same factor |
| Vectors.NormSqScale | Desktop/negocios/codigo.py:300-313 | scaling by k scales the squared norm by k² |
| Vectors.NormScale | Desktop/negocios/codigo.py:300-313 | scaling a non-zero vector by k > 0 scales its norm by k |
| Vectors.CosineScaleInvariant | Desktop/negocios/codigo.py:300-313 | the cosine does not depend on magnitude: scaling either vector by k > 0 leaves it unchanged |
| Vectors.CosineSelf | Desktop/negocios/codigo.py:300-313 | a vector's cosine with itself is 1 ("identical") |
| Vectors.CosineSameDirection | Desktop/negocios/codigo.py:300-313 | a vector and any positive multiple of it have cosine 1 |
| Vectors.DotNonNegative | Desktop/negocios/demo_cosine_similarity.py:44 | two vectors with non-negative features have a non-negative dot product |
| Vectors.CosineNonNegative | Desktop/negocios/codigo.py:300-313 | for non-negative feature vectors (all the data here) the cosine lies in [0, 1] |
| Market.BandOf | Desktop/negocios/codigo.py:289 | ALTO iff the value exceeds 0.66, MEDIO iff it is in (0.33, 0.66], BAJO iff it is at most 0.33 |
| Market.BandBoundaries | Desktop/negocios/codigo.py:289 | both thresholds are exclusive: 0.66 is MEDIO and 0.33 is BAJO |
| Market.BandMonotone | Desktop/negocios/codigo.py:521 | a larger value never gets a lower band |
| Seed.ComponentsMatchVector | Desktop/negocios/codigo.py:272-281 | the component table and the vector of the current situation hold the same six values, in order |
| Seed.CurrentBands | Desktop/negocios/codigo.py:288-289 | the printed levels are MEDIO, ALTO, BAJO, MEDIO, ALTO, ALTO |
| Seed.VectorsWellFormed | Desktop/negocios/codigo.py:67-119 | every vector of the data has six features in [0, 1] and is non-zero |
| Seed.SituationWellFormed | Desktop/negocios/codigo.py:67-119 | each historical situation's vector is well formed and non-zero |
| Seed.SeedKeysDistinct | Desktop/negocios/codigo.py:67-231 | no id occurs twice in the situation, action or history table |
| Ranking.ScoreTable | Desktop/negocios/codigo.py:319-334 | the table after the loop has at most one entry per situation and is non-empty when there is a situation; `ScoreTableEntrywise` and `ScoreTableKeys` give its exact contents |
| Ranking.ScoreTableEntrywise | Desktop/negocios/codigo.py:319-334 | with distinct ids the score table has one entry per situation, in insertion order, holding that situation's score and fields |
| Ranking.FreshLastKey | Desktop/negocios/codigo.py:323-329 | with distinct ids, each visited id is new to the score table, so the assignment appends |
| Ranking.ExtendEntrywise | Desktop/negocios/codigo.py:323-334 | appending the last situation's entry keeps the table one-entry-per-situation |
| Ranking.ScoreTableKeys | Desktop/negocios/codigo.py:319-334 | every key of the score table is a situation id |
| Ranking.ScoreSituations | Desktop/negocios/codigo.py:319-334 | the scoring loop builds the score table; with distinct ids it has one entry per situation, in order |
| Ranking.Insert | Desktop/negocios/codigo.py:337 | inserting one entry lengthens the list by one; `InsertPermutation`, `InsertSorted` and `InsertStable` give its contents, order and stability |
| Ranking.Rank | Desktop/negocios/codigo.py:337 | `sorted(..., reverse=True)` keeps the length; `RankPermutation`, `RankSorted` and `RankStable` prove it a stable descending permutation |
| Ranking.InsertPermutation | Desktop/negocios/codigo.py:337 | inserting adds exactly the one entry |
| Ranking.InsertBounded | Desktop/negocios/codigo.py:337 | inserting under a score bound keeps every score under it |
| Ranking.InsertSorted | Desktop/negocios/codigo.py:337 | inserting into a descending list keeps it descending |
| Ranking.RankPermutation | Desktop/negocios/codigo.py:337 | the sorted list is a permutation of the score table |
| Ranking.RankSorted | Desktop/negocios/codigo.py:337 | the sorted list never increases in similarity (`reverse=True`) |
| Ranking.FilterCons | Desktop/negocios/codigo.py:337 | the entries of one score are filtered head first |
| Ranking.InsertStable | Desktop/negocios/codigo.py:337 | insertion keeps the relative order of equal-score entries |
| Ranking.RankStable | Desktop/negocios/codigo.py:337 | the sort is stable: entries with equal scores keep their table order |
| Ranking.RankHeadIsMaximal | Desktop/negocios/codigo.py:337 | the head of the sorted list is a table entry whose score is at least every entry's score |
| Ranking.FilterFirst | Desktop/negocios/codigo.py:337 | the first entry of a given score heads that score's filtered list |
| Ranking.RankHeadIsFirstMaximal | Desktop/negocios/codigo.py:337 | the head of the sorted list is the first table entry of maximal score |
| Ranking.RankedIds | Desktop/negocios/codigo.py:323-337 | with distinct ids the ranking has one entry per situation and holds exactly the situation ids |
| Ranking.RankedKeys | Desktop/negocios/codigo.py:337 | every id in the ranking is a situation id |
| Recommender.Select | Desktop/negocios/codigo.py:366-371 | on success the result is the head of the ranking, its recorded action and that action's descriptor; the empty ranking fails with IndexError; a missing id or action fails with KeyError naming it |
| Recommender.Recommend | Desktop/negocios/codigo.py:319-371 | the analysis fails with IndexError exactly when there is no situation, and a recommendation always names a known situation; `RecommendIsNearest` and `RecommendResolves` give which one and when it succeeds |
| Recommender.Analyze | Desktop/negocios/codigo.py:319-371 | the script's scoring loop, sort and selection compute `Recommend` |
| Recommender.FirstNearestExists | Desktop/negocios/codigo.py:365-366 | every non-empty library has a first situation of greatest similarity |
| Recommender.RecommendIsNearest | Desktop/negocios/codigo.py:365-371 | the recommendation is the outcome of the first most similar situation |
| Recommender.RecommendResolves | Desktop/negocios/codigo.py:366-371 | with consistent reference data and at least one situation, the analysis always yields a recommendation |
| Recommender.RecommendEmpty | Desktop/negocios/codigo.py:366 | an empty library fails at indexing the sorted list |
| Recommender.NearestByCosine | Desktop/negocios/codigo.py:365-366 | whatever the norms, no situation has a larger cosine than the recommended one, and the earlier ones have a strictly smaller one |
| Recommender.RankedHaveOutcomes | Desktop/negocios/codigo.py:579-581 | with consistent reference data, every ranked situation has a recorded action, so the report's lookups succeed |
| Analysis.SeedComparable | Desktop/negocios/codigo.py:67-119 | every historical vector can be compared with the current one |
| Analysis.SeedIntegrity | Desktop/negocios/codigo.py:223-231 | every situation has a recorded action, and every recorded action belongs to a situation and is a known action |
| Analysis.FirstKey | Desktop/negocios/codigo.py:71-77 | USUARIO_01's squared norm is 2.5375 and its key is 2.3275² / (2.1625 · 2.5375) |
| Analysis.Situation2BelowFirst | Desktop/negocios/codigo.py:78-84 | USUARIO_02 is strictly less similar than USUARIO_01 |
| Analysis.Situation3BelowFirst | Desktop/negocios/codigo.py:85-91 | USUARIO_03 is strictly less similar than USUARIO_01 |
| Analysis.Situation4BelowFirst | Desktop/negocios/codigo.py:92-98 | USUARIO_04 is strictly less similar than USUARIO_01 |
| Analysis.Situation5BelowFirst | Desktop/negocios/codigo.py:99-105 | USUARIO_05 is strictly less similar than USUARIO_01 |
| Analysis.Situation6BelowFirst | Desktop/negocios/codigo.py:106-112 | USUARIO_06 is strictly less similar than USUARIO_01 |
| Analysis.Situation7BelowFirst | Desktop/negocios/codigo.py:113-119 | USUARIO_07 is strictly less similar than USUARIO_01 |
| Analysis.FirstSituationNearest | Desktop/negocios/codigo.py:319-337 | every other situation is strictly less similar to the current one than USUARIO_01 |
| Analysis.SeedNearest | Desktop/negocios/codigo.py:337-366 | USUARIO_01 is the first most similar situation |
| Analysis.SeedRanking | Desktop/negocios/codigo.py:67-119 | the ranking of the script's data has seven entries, exactly the seven situation ids |
| Analysis.SeedRecommendation | Desktop/negocios/codigo.py:366-371 | the analysis recommends USUARIO_01's action VENDER_FUERTE, "VENDER PETRÓLEO" at level "AGRESIVO" |
| CosineDemo.Manhattan | Desktop/negocios/demo_cosine_similarity.py:35 | the distance is never negative and is at least the first component's difference |
| CosineDemo.ManhattanSymmetric | Desktop/negocios/demo_cosine_similarity.py:35 | the distance is symmetric |
| CosineDemo.ManhattanZero | Desktop/negocios/demo_cosine_similarity.py:35 | the distance is zero exactly for identical vectors |
| CosineDemo.ManhattanTriangle | Desktop/negocios/demo_cosine_similarity.py:35 | the triangle inequality |
| CosineDemo.Contains | Desktop/negocios/demo_cosine_similarity.py:50-52 | `sub in s`: the empty string is in every string, and a contained string is no longer than its container; `ContainsIffOccurs` relates it to occurrence at an index |
| CosineDemo.ContainsIffOccurs | Desktop/negocios/demo_cosine_similarity.py:50-52 | `sub in s` holds exactly when `sub` occurs at some position of `s` |
| CosineDemo.CharAbsent | Desktop/negocios/demo_cosine_similarity.py:50-52 | a string lacking one character of `sub` does not contain `sub` |
| CosineDemo.Occurs | Desktop/negocios/demo_cosine_similarity.py:50-52 | an occurrence at a position makes `sub in s` true |
| CosineDemo.LabelOf | Desktop/negocios/demo_cosine_similarity.py:50-55 | decided by the name alone: COMPRAR iff the name contains SIMILAR; VENDER iff it does not but contains DIFERENTE or OPUESTO; MANTENER iff it contains none of the three |
| CosineDemo.LabelPrecedence | Desktop/negocios/demo_cosine_similarity.py:50-53 | SIMILAR takes precedence over OPUESTO |
| CosineDemo.SimilarName | Desktop/negocios/demo_cosine_similarity.py:50-51 | a name with SIMILAR at some position is labelled COMPRAR, including "MUY SIMILAR" |
| CosineDemo.ContraryName | Desktop/negocios/demo_cosine_similarity.py:52-53 | a name without SIMILAR but with DIFERENTE or OPUESTO is labelled VENDER |
| CosineDemo.SimilarScenarios | Desktop/negocios/demo_cosine_similarity.py:7-8 | scenarios A and B are labelled COMPRAR |
| CosineDemo.ContraryScenarios | Desktop/negocios/demo_cosine_similarity.py:9-10 | scenarios C and D are labelled VENDER |
| CosineDemo.ScenarioLabels | Desktop/negocios/demo_cosine_similarity.py:6-11 | the four scenarios are labelled COMPRAR, COMPRAR, VENDER, VENDER; none is labelled MANTENER |
| CosineDemo.DemoVectorsComparable | Desktop/negocios/demo_cosine_similarity.py:4-11 | every demo vector is non-negative and non-zero, with four features |
| CosineDemo.ManhattanValues | Desktop/negocios/demo_cosine_similarity.py:33-35 | the Manhattan distances are 0.20, 0.25, 2.35 and 2.20 |
| CosineDemo.CosineOfA | Desktop/negocios/demo_cosine_similarity.py:44-47 | scenario A has the current vector's length, so its cosine is exactly 2.485 / 2.49 |
| CosineDemo.ScenarioKeys | Desktop/negocios/demo_cosine_similarity.py:44-47 | the ranking keys order the scenarios A > B > C > D |
| CosineDemo.ScenarioCosineOrder | Desktop/negocios/demo_cosine_similarity.py:44-47 | whatever the norms, the cosines order the scenarios A > B > C > D |
| CosineDemo.MetricsDisagree | Desktop/negocios/demo_cosine_similarity.py:35-47 | Manhattan puts D nearer than C, while the cosine, whatever the norms, puts C nearer than D; both metrics put A nearer than B |

## Left out

- Printing, the progress banners and the formatted tables of both scripts are left out. They produce no value the model needs.
- The plots are left out (`codigo.py:411-489`), and so is the directory creation (`codigo.py:37-38`). Both are I/O.
- The text report is left out (`codigo.py:499-624`), apart from its per-situation history lookup (`codigo.py:581`). That lookup is covered by `Recommender.RankedHaveOutcomes`. The report's repeated level label (`codigo.py:521`) is the same rule as `Market.BandOf`.
- The library call that computes the cosine (`codigo.py:31, 327`) is not part of this model. It is modelled by its mathematical definition, with the exact key described above.
- Floating point is left out: the model computes with exact reals. Any rounding in the printed values, and any tie that rounding could break or create, is not modelled. Printed figures such as 0.9987 are not asserted.
- The Euclidean and Minkowski distances of the demo (`demo_cosine_similarity.py:38, 41`) are left out. They need square and cube roots, which Dafny's reals lack. They only feed a printed column.
- The `yfinance` and `datetime` imports are unused by the core and are left out.
- Vectors.Cosine: takes the Euclidean norms as parameters characterised by `IsNorm`, because Dafny's reals have no square root. It also requires two non-zero vectors of equal length: for a zero vector the demo's division (`demo_cosine_similarity.py:47`) gives `nan` with a runtime warning, and that result is not modelled.
- Vectors.Dot: requires equal lengths. For vectors of different lengths `np.dot` (`demo_cosine_similarity.py:44`) raises ValueError, and that error path is not modelled.
- CosineDemo.Manhattan: requires equal lengths. For different lengths numpy's subtraction (`demo_cosine_similarity.py:35`) raises ValueError, or broadcasts when one vector has length 1; neither path is modelled. All the demo's vectors have four features (`CosineDemo.DemoVectorsComparable`).
- Ranking.ScoreSituations: stores the exact key cos·\|cos\| as the similarity rather than the cosine itself. The two induce the same order and the same ties, by `KeyOrderIsCosineOrder`.
- Ranking.Comparable: situations and query must have equal dimension and be non-zero. For mismatched dimensions the library call raises an error, and for a zero vector it returns 0. The script's data never meets either case (`Analysis.SeedComparable`), and neither path is modelled.
- Dict key uniqueness is not built into the table type. Lemmas that need it take `DistinctKeys` as a hypothesis, and `Seed.SeedKeysDistinct` proves it for the script's tables.
