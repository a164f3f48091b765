/**
 * The fertilizer planner: classifies each of nitrogen, phosphorus and
 * potassium against its optimal range, derives a dosage for a deficient
 * nutrient, and derives a lime or sulfur dosage from the pH.
 */
module Fertilizer {
  import opened Soil

  datatype NutrientStatus = Low | Optimal | High

  /** `low` below the range, `high` above it, `optimal` otherwise. */
  function GetNutrientStatus(current: real, optimal: Range): (s: NutrientStatus)
    ensures s == Low <==> current < optimal.lo
    ensures s == High <==> optimal.lo <= current && optimal.hi < current
    ensures optimal.lo <= optimal.hi ==> (s == Optimal <==> In(current, optimal))
  {
    if current < optimal.lo then Low
    else if current > optimal.hi then High
    else Optimal
  }

  /** The fertilizers a dosage can name. */
  datatype Product = Urea | DAP | SSP | MOP

  /** kg per hectare of product applied per mg/kg of deficiency. */
  function Rate(p: Product): real
  {
    match p
    case Urea => 2.0
    case DAP => 1.5
    case SSP => 3.0
    case MOP => 2.5
  }

  datatype Dose = Dose(kgPerHectare: int, product: Product)

  /**
   * A recommendation: either dosages (any one of `options` suffices,
   * "apply X of Urea or Y of DAP") or a fixed advice text; the empty
   * text is what an unknown nutrient gets.
   */
  datatype Advice = Apply(options: seq<Dose>) | Note(text: string)

  predicate IsKnownNutrient(nutrient: string)
  {
    nutrient == "Nitrogen" || nutrient == "Phosphorus" || nutrient == "Potassium"
  }

  /** The products recommended for a deficient nutrient, in the order offered. */
  function ProductsFor(nutrient: string): (ps: seq<Product>)
    requires IsKnownNutrient(nutrient)
    ensures 1 <= |ps| <= 2
  {
    if nutrient == "Nitrogen" then [Urea, DAP]
    else if nutrient == "Phosphorus" then [SSP]
    else [MOP]
  }

  const ReduceNitrogen := "Reduce nitrogen fertilizers. Consider split application or organic alternatives"
  const MaintainNitrogen := "Maintain current nitrogen levels with balanced NPK fertilizer"
  const AvoidPhosphorus := "Avoid phosphorus fertilizers. Focus on nitrogen and potassium"
  const MaintainPhosphorus := "Maintain with regular NPK application"
  const ReducePotassium := "Reduce potassium fertilizers. Monitor plant health"
  const MaintainPotassium := "Maintain with balanced fertilization"

  /**
   * The recommendation for one nutrient. Only a `low` status of a known
   * nutrient gives dosages, each the rounded deficiency (lo - current)
   * times the product's rate; `high` and `optimal` give fixed texts.
   */
  function GetRecommendation(nutrient: string, status: NutrientStatus, current: real, optimal: Range): (r: Advice)
    ensures r.Apply? <==> IsKnownNutrient(nutrient) && status == Low
    ensures !IsKnownNutrient(nutrient) ==> r == Note("")
    ensures r.Apply? ==>
      |r.options| == |ProductsFor(nutrient)| &&
      forall i :: 0 <= i < |r.options| ==>
        r.options[i].product == ProductsFor(nutrient)[i] &&
        r.options[i].kgPerHectare == Round((optimal.lo - current) * Rate(r.options[i].product))
    ensures r.Note? && IsKnownNutrient(nutrient) ==> r.text != ""
    ensures nutrient == "Nitrogen" && status == High ==> r == Note(ReduceNitrogen)
    ensures nutrient == "Nitrogen" && status == Optimal ==> r == Note(MaintainNitrogen)
    ensures nutrient == "Phosphorus" && status == High ==> r == Note(AvoidPhosphorus)
    ensures nutrient == "Phosphorus" && status == Optimal ==> r == Note(MaintainPhosphorus)
    ensures nutrient == "Potassium" && status == High ==> r == Note(ReducePotassium)
    ensures nutrient == "Potassium" && status == Optimal ==> r == Note(MaintainPotassium)
  {
    var deficiency := optimal.lo - current;
    if nutrient == "Nitrogen" then
      if status == Low then Apply([Dose(Round(deficiency * 2.0), Urea), Dose(Round(deficiency * 1.5), DAP)])
      else if status == High then Note(ReduceNitrogen)
      else Note(MaintainNitrogen)
    else if nutrient == "Phosphorus" then
      if status == Low then Apply([Dose(Round(deficiency * 3.0), SSP)])
      else if status == High then Note(AvoidPhosphorus)
      else Note(MaintainPhosphorus)
    else if nutrient == "Potassium" then
      if status == Low then Apply([Dose(Round(deficiency * 2.5), MOP)])
      else if status == High then Note(ReducePotassium)
      else Note(MaintainPotassium)
    else Note("")
  }

  /** One row of the nutrient table. */
  datatype NutrientRow = NutrientRow(name: string, current: real, optimal: Range)

  /** The three nutrients, their readings and their optimal ranges, in display order. */
  function Nutrients(d: SoilData): (rows: seq<NutrientRow>)
    ensures |rows| == 3
    ensures rows[0] == NutrientRow("Nitrogen", d.nitrogen, Range(30.0, 60.0))
    ensures rows[1] == NutrientRow("Phosphorus", d.phosphorus, Range(15.0, 40.0))
    ensures rows[2] == NutrientRow("Potassium", d.potassium, Range(25.0, 80.0))
    ensures forall i :: 0 <= i < |rows| ==> IsKnownNutrient(rows[i].name) && rows[i].optimal.lo < rows[i].optimal.hi
  {
    [ NutrientRow("Nitrogen", d.nitrogen, Range(30.0, 60.0)),
      NutrientRow("Phosphorus", d.phosphorus, Range(15.0, 40.0)),
      NutrientRow("Potassium", d.potassium, Range(25.0, 80.0)) ]
  }

  /** What one nutrient card shows. */
  datatype Assessment = Assessment(name: string, status: NutrientStatus, advice: Advice)

  /**
   * The assessment of a row: low below the range, high above it, and the
   * advice for that status, with dosages exactly when the reading is low.
   */
  function Assess(row: NutrientRow): (a: Assessment)
    ensures a.name == row.name
    ensures a.status == Low <==> row.current < row.optimal.lo
    ensures row.optimal.lo <= row.optimal.hi ==> (a.status == High <==> row.current > row.optimal.hi)
    ensures a.advice.Apply? <==> IsKnownNutrient(row.name) && row.current < row.optimal.lo
    ensures a.advice == GetRecommendation(row.name, a.status, row.current, row.optimal)
  {
    var status := GetNutrientStatus(row.current, row.optimal);
    Assessment(row.name, status, GetRecommendation(row.name, status, row.current, row.optimal))
  }

  /**
   * The three nutrient cards in table order; a card is low below the
   * range, high above it and optimal within it, and carries the advice for
   * its status, with dosages exactly when its reading is low.
   */
  function Plan(d: SoilData): (cards: seq<Assessment>)
    ensures |cards| == 3
    ensures forall i :: 0 <= i < 3 ==> cards[i].name == Nutrients(d)[i].name
    ensures forall i :: 0 <= i < 3 ==>
      (cards[i].advice.Apply? <==> Nutrients(d)[i].current < Nutrients(d)[i].optimal.lo)
    ensures forall i :: 0 <= i < 3 ==>
      (cards[i].status == Optimal <==>
        Nutrients(d)[i].optimal.lo <= Nutrients(d)[i].current <= Nutrients(d)[i].optimal.hi)
    ensures forall i :: 0 <= i < 3 ==>
      (cards[i].status == Low <==> Nutrients(d)[i].current < Nutrients(d)[i].optimal.lo)
    ensures forall i :: 0 <= i < 3 ==>
      (cards[i].status == High <==> Nutrients(d)[i].current > Nutrients(d)[i].optimal.hi)
    ensures forall i :: 0 <= i < 3 ==>
      cards[i].advice == GetRecommendation(Nutrients(d)[i].name, cards[i].status,
                                           Nutrients(d)[i].current, Nutrients(d)[i].optimal)
  {
    var rows := Nutrients(d);
    [Assess(rows[0]), Assess(rows[1]), Assess(rows[2])]
  }

  /**
   * On a `low` status every dosage is non-negative, and raising the
   * reading towards the range's lower end never raises a dosage.
   */
  lemma DoseNonIncreasing(nutrient: string, c1: real, c2: real, optimal: Range, i: nat)
    requires IsKnownNutrient(nutrient)
    requires c1 <= c2 < optimal.lo
    requires i < |ProductsFor(nutrient)|
    ensures var a1 := GetRecommendation(nutrient, GetNutrientStatus(c1, optimal), c1, optimal);
            var a2 := GetRecommendation(nutrient, GetNutrientStatus(c2, optimal), c2, optimal);
            a1.Apply? && a2.Apply? &&
            0 <= a2.options[i].kgPerHectare <= a1.options[i].kgPerHectare
  {
    var a1 := GetRecommendation(nutrient, GetNutrientStatus(c1, optimal), c1, optimal);
    var a2 := GetRecommendation(nutrient, GetNutrientStatus(c2, optimal), c2, optimal);
    var rate := Rate(ProductsFor(nutrient)[i]);
    assert rate > 0.0;
    var d1, d2 := (optimal.lo - c1) * rate, (optimal.lo - c2) * rate;
    assert 0.0 <= d2 <= d1;
    RoundNonNegative(d2);
    RoundMonotone(d2, d1);
  }

  /** Nitrogen 10 against [30, 60]: 40 kg/ha of Urea or 30 kg/ha of DAP. */
  lemma NitrogenTenExample()
    ensures GetRecommendation("Nitrogen", GetNutrientStatus(10.0, Range(30.0, 60.0)), 10.0, Range(30.0, 60.0))
            == Apply([Dose(40, Urea), Dose(30, DAP)])
  {
    RoundOfInt(40);
    RoundOfInt(30);
  }

  /** The pH card: lime below 6.0, sulfur above 7.5, otherwise maintenance. */
  datatype PhAdvice = Lime(kgPerHectare: int) | Sulfur(kgPerHectare: int) | MaintainPh

  /**
   * Exactly one branch applies; lime is round((6.0 - pH) * 500) kg/ha and
   * sulfur round((pH - 7.5) * 200) kg/ha, both non-negative.
   */
  function PhAdjustment(ph: real): (r: PhAdvice)
    ensures r.Lime? <==> ph < 6.0
    ensures r.Sulfur? <==> ph > 7.5
    ensures r.MaintainPh? <==> 6.0 <= ph <= 7.5
    ensures !r.MaintainPh? ==> r.kgPerHectare >= 0
    ensures r.Lime? ==> (r.kgPerHectare as real) - 0.5 <= (6.0 - ph) * 500.0 < (r.kgPerHectare as real) + 0.5
    ensures r.Sulfur? ==> (r.kgPerHectare as real) - 0.5 <= (ph - 7.5) * 200.0 < (r.kgPerHectare as real) + 0.5
  {
    if ph < 6.0 then
      RoundNonNegative((6.0 - ph) * 500.0);
      Lime(Round((6.0 - ph) * 500.0))
    else if ph > 7.5 then
      RoundNonNegative((ph - 7.5) * 200.0);
      Sulfur(Round((ph - 7.5) * 200.0))
    else MaintainPh
  }

  /** pH 5.0 asks for 500 kg/ha of lime. */
  lemma PhFiveExample()
    ensures PhAdjustment(5.0) == Lime(500)
  {
    RoundOfInt(500);
  }

  /** The further the pH is below 6.0 (above 7.5), the lime (sulfur) dosage is never smaller. */
  lemma PhDoseMonotone(p1: real, p2: real)
    requires p1 <= p2
    ensures p2 < 6.0 ==> PhAdjustment(p2).kgPerHectare <= PhAdjustment(p1).kgPerHectare
    ensures 7.5 < p1 ==> PhAdjustment(p1).kgPerHectare <= PhAdjustment(p2).kgPerHectare
  {
    if p2 < 6.0 {
      RoundMonotone((6.0 - p2) * 500.0, (6.0 - p1) * 500.0);
    }
    if 7.5 < p1 {
      RoundMonotone((p1 - 7.5) * 200.0, (p2 - 7.5) * 200.0);
    }
  }
}
