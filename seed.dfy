/** The reference data of the recommender and the current situation it is
    asked about, with the facts about them that the rest of the model needs.

    Features, in order: price trend, volatility, sentiment, demand,
    inventories, geopolitical risk; each normalised to [0, 1]. */
module Seed {
  import opened Tables
  import opened Vectors
  import opened Market

  // Situation ids, in the order the situations are declared.
  const MercadoConMiedo := "USUARIO_01_MercadoConMiedo"
  const MercadoOptimista := "USUARIO_02_MercadoOptimista"
  const VolatilidadAlta := "USUARIO_03_VolatilidadAlta"
  const RecorteOPEP := "USUARIO_04_RecorteOPEP"
  const CrisisRecesion := "USUARIO_05_CrisisRecesion"
  const AltaDemandaVerano := "USUARIO_06_AltaDemandaVerano"
  const ColapsoPrecio := "USUARIO_07_ColapsoPrecio"

  // Action ids, in the order the actions are declared.
  const ComprarFuerte := "COMPRAR_FUERTE"
  const ComprarModerado := "COMPRAR_MODERADO"
  const Mantener := "MANTENER"
  const VenderModerado := "VENDER_MODERADO"
  const VenderFuerte := "VENDER_FUERTE"
  const Cobertura := "COBERTURA"

  /** `usuarios_historicos`: seven past market situations. */
  const Situations: Table<Situation> := [
    Binding(MercadoConMiedo, Situation([0.30, 0.85, 0.15, 0.40, 0.95, 0.80],
      "Mercado con miedo por crisis geopolítica",
      "Guerra en Medio Oriente, inventarios altos, demanda baja", "2023-10-15")),
    Binding(MercadoOptimista, Situation([0.75, 0.30, 0.85, 0.80, 0.35, 0.20],
      "Mercado optimista con fuerte demanda",
      "Recuperación económica China, inventarios bajos", "2023-03-20")),
    Binding(VolatilidadAlta, Situation([0.50, 0.95, 0.40, 0.60, 0.50, 0.75],
      "Alta volatilidad por incertidumbre OPEP",
      "Decisión de producción OPEP+ inminente", "2023-06-01")),
    Binding(RecorteOPEP, Situation([0.85, 0.55, 0.90, 0.75, 0.25, 0.30],
      "OPEP+ anuncia recorte de producción",
      "Recorte de 2M barriles/día, mercado alcista", "2023-04-05")),
    Binding(CrisisRecesion, Situation([0.20, 0.70, 0.10, 0.25, 0.90, 0.60],
      "Temor a recesión global reduce demanda",
      "Fed sube tasas, pronósticos negativos de crecimiento", "2023-07-12")),
    Binding(AltaDemandaVerano, Situation([0.80, 0.40, 0.70, 0.90, 0.30, 0.25],
      "Temporada alta de demanda (verano USA)",
      "Driving season, inventarios en mínimos estacionales", "2023-06-15")),
    Binding(ColapsoPrecio, Situation([0.10, 0.90, 0.05, 0.20, 0.95, 0.85],
      "Colapso de precio por sobreoferta",
      "Shale oil USA en máximos históricos, demanda débil", "2023-11-08"))
  ]

  /** `novelas_disponibles`: the six actions that can be recommended. */
  const Actions: Table<ActionDescriptor> := [
    Binding(ComprarFuerte, ActionDescriptor("COMPRAR PETRÓLEO", "AGRESIVO",
      "Comprar contratos de futuros, aumentar exposición", "MEDIO-ALTO", "3-6 meses")),
    Binding(ComprarModerado, ActionDescriptor("COMPRAR PETRÓLEO", "MODERADO",
      "Comprar gradualmente, aprovechar caídas", "MEDIO", "1-3 meses")),
    Binding(Mantener, ActionDescriptor("MANTENER POSICIÓN", "NEUTRAL",
      "No tomar acción, esperar señales más claras", "BAJO", "2-4 semanas")),
    Binding(VenderModerado, ActionDescriptor("VENDER PETRÓLEO", "MODERADO",
      "Reducir posiciones gradualmente, tomar ganancias", "MEDIO", "1-2 meses")),
    Binding(VenderFuerte, ActionDescriptor("VENDER PETRÓLEO", "AGRESIVO",
      "Cerrar posiciones rápidamente, proteger capital", "ALTO", "2-3 semanas")),
    Binding(Cobertura, ActionDescriptor("CUBRIR RIESGO", "DEFENSIVO",
      "Hedging con opciones, proteger cartera", "BAJO", "1-6 meses"))
  ]

  /** `historial_exitos`: the action that worked in each past situation. */
  const History: Table<string> := [
    Binding(MercadoConMiedo, VenderFuerte),
    Binding(MercadoOptimista, ComprarFuerte),
    Binding(VolatilidadAlta, Mantener),
    Binding(RecorteOPEP, ComprarFuerte),
    Binding(CrisisRecesion, VenderModerado),
    Binding(AltaDemandaVerano, ComprarModerado),
    Binding(ColapsoPrecio, Cobertura)
  ]

  /** The current situation's vector (`situacion_actual['vector']`). */
  const Current: Vector := [0.35, 0.75, 0.25, 0.45, 0.85, 0.70]

  /** The same situation, component by component (`situacion_actual['componentes']`). */
  const Components: Table<real> := [
    Binding("precio_tendencia", 0.35),
    Binding("volatilidad", 0.75),
    Binding("sentimiento", 0.25),
    Binding("demanda", 0.45),
    Binding("inventarios", 0.85),
    Binding("riesgo_geopolitico", 0.70)
  ]

  /** A feature vector as the data promises it: six features in [0, 1]. */
  predicate WellFormed(v: Vector)
  {
    |v| == 6 && forall i :: 0 <= i < |v| ==> 0.0 <= v[i] <= 1.0
  }

  /** The two descriptions of the current situation agree, component by
      component and in order. */
  lemma ComponentsMatchVector()
    ensures |Components| == |Current|
    ensures forall i :: 0 <= i < |Current| ==> Components[i].value == Current[i]
  {
  }

  /** The band printed next to each component of the current situation:
      price trend MEDIO, volatility ALTO, sentiment BAJO, demand MEDIO,
      inventories ALTO, geopolitical risk ALTO. */
  lemma CurrentBands()
    ensures forall i :: 0 <= i < |Components| ==> BandOf(Components[i].value) == [Medio, Alto, Bajo, Medio, Alto, Alto][i]
  {
  }

  /** Every vector of the data is well formed and non-zero. */
  lemma VectorsWellFormed()
    ensures WellFormed(Current) && NormSq(Current) > 0.0
    ensures forall i :: 0 <= i < |Situations| ==> WellFormed(Situations[i].value.vector) && NormSq(Situations[i].value.vector) > 0.0
  {
    HeadSquarePositive(Current);
    forall i | 0 <= i < |Situations|
      ensures WellFormed(Situations[i].value.vector) && NormSq(Situations[i].value.vector) > 0.0
    {
      SituationWellFormed(i);
    }
  }

  lemma SituationWellFormed(i: int)
    requires 0 <= i < |Situations|
    ensures WellFormed(Situations[i].value.vector) && NormSq(Situations[i].value.vector) > 0.0
  {
    var v := Situations[i].value.vector;
    // each vector has a non-zero first feature
    HeadSquarePositive(v);
    if i == 0 { assert v == [0.30, 0.85, 0.15, 0.40, 0.95, 0.80]; Features(0.30, 0.85, 0.15, 0.40, 0.95, 0.80); }
    else if i == 1 { assert v == [0.75, 0.30, 0.85, 0.80, 0.35, 0.20]; Features(0.75, 0.30, 0.85, 0.80, 0.35, 0.20); }
    else if i == 2 { assert v == [0.50, 0.95, 0.40, 0.60, 0.50, 0.75]; Features(0.50, 0.95, 0.40, 0.60, 0.50, 0.75); }
    else if i == 3 { assert v == [0.85, 0.55, 0.90, 0.75, 0.25, 0.30]; Features(0.85, 0.55, 0.90, 0.75, 0.25, 0.30); }
    else if i == 4 { assert v == [0.20, 0.70, 0.10, 0.25, 0.90, 0.60]; Features(0.20, 0.70, 0.10, 0.25, 0.90, 0.60); }
    else if i == 5 { assert v == [0.80, 0.40, 0.70, 0.90, 0.30, 0.25]; Features(0.80, 0.40, 0.70, 0.90, 0.30, 0.25); }
    else { assert v == [0.10, 0.90, 0.05, 0.20, 0.95, 0.85]; Features(0.10, 0.90, 0.05, 0.20, 0.95, 0.85); }
  }

  /** Six features in [0, 1] make a well-formed vector. */
  lemma Features(a: real, b: real, c: real, d: real, e: real, f: real)
    requires 0.0 <= a <= 1.0 && 0.0 <= b <= 1.0 && 0.0 <= c <= 1.0
    requires 0.0 <= d <= 1.0 && 0.0 <= e <= 1.0 && 0.0 <= f <= 1.0
    ensures WellFormed([a, b, c, d, e, f])
  {
    var v := [a, b, c, d, e, f];
    forall i | 0 <= i < |v|
      ensures 0.0 <= v[i] <= 1.0
    {
    }
  }

  /** No id occurs twice in any of the three tables, as for any dict. */
  lemma SeedKeysDistinct()
    ensures DistinctKeys(Situations) && DistinctKeys(Actions) && DistinctKeys(History)
  {
    assert MercadoConMiedo[9] == '1' && VolatilidadAlta[9] == '3';
  }
}
