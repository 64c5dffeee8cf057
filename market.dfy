/** The entities of the oil-market recommender.

    A historical market situation plays the part of a "user" of a classic
    recommender, and a recommended action (buy, sell, hold, hedge) the part of
    the item recommended to it. */
module Market {
  import opened Vectors

  /** One historical market situation (`usuarios_historicos[id]`). */
  datatype Situation = Situation(vector: Vector, description: string, context: string, date: string)

  /** One action that can be recommended (`novelas_disponibles[id]`). */
  datatype ActionDescriptor = ActionDescriptor(
    action: string,       // what to do, e.g. "VENDER PETRÓLEO"
    level: string,        // how aggressively, e.g. "AGRESIVO"
    explanation: string,
    risk: string,
    horizon: string)

  /** The band a feature value in [0, 1] falls in, as printed next to each
      component of the current situation. */
  datatype Band = Alto | Medio | Bajo

  /** Bands ordered from low to high. */
  function BandRank(b: Band): (r: nat)
  {
    match b
    case Bajo => 0
    case Medio => 1
    case Alto => 2
  }

  /** ALTO above 0.66, MEDIO above 0.33, BAJO otherwise. */
  function BandOf(v: real): (b: Band)
    ensures b == Alto <==> v > 0.66
    ensures b == Medio <==> 0.33 < v <= 0.66
    ensures b == Bajo <==> v <= 0.33
  {
    if v > 0.66 then Alto else if v > 0.33 then Medio else Bajo
  }

  /** Both thresholds are exclusive: 0.66 is still MEDIO and 0.33 still BAJO,
      and every value strictly above a threshold is in the band above it. */
  lemma BandBoundaries()
    ensures BandOf(0.66) == Medio && BandOf(0.33) == Bajo
    ensures BandOf(0.67) == Alto && BandOf(0.34) == Medio
  {
  }

  /** A larger value never gets a lower band. */
  lemma BandMonotone(v: real, w: real)
    requires v <= w
    ensures BandRank(BandOf(v)) <= BandRank(BandOf(w))
  {
  }
}
