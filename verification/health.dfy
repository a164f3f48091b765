/**
 * The soil-health analysis: a composite score from four banded readings,
 * its status label, the environmental commentary and the improvement
 * suggestions.
 */
module Health {
  import opened Soil

  /**
   * The three bands of one reading, checked in order: a reading in `top`
   * earns 25 points, else in `middle` 20, else in `outer` 15, else 10.
   */
  datatype BandTable = BandTable(top: Range, middle: Range, outer: Range)

  /** Each band lies inside the next one. */
  predicate Nested(t: BandTable)
  {
    t.middle.lo <= t.top.lo && t.top.hi <= t.middle.hi &&
    t.outer.lo <= t.middle.lo && t.middle.hi <= t.outer.hi
  }

  const PhBands := BandTable(Range(6.0, 7.5), Range(5.5, 8.0), Range(5.0, 8.5))
  const NitrogenBands := BandTable(Range(30.0, 60.0), Range(20.0, 80.0), Range(15.0, 100.0))
  const PhosphorusBands := BandTable(Range(15.0, 40.0), Range(10.0, 50.0), Range(8.0, 60.0))
  const PotassiumBands := BandTable(Range(25.0, 80.0), Range(20.0, 100.0), Range(15.0, 120.0))

  /**
   * The points of the first band containing `x`. For nested bands this
   * means: 25 exactly inside `top`, at least 20 exactly inside `middle`,
   * at least 15 exactly inside `outer`.
   */
  function BandPoints(x: real, t: BandTable): (p: int)
    ensures p == 10 || p == 15 || p == 20 || p == 25
    ensures Nested(t) ==>
      (p == 25 <==> In(x, t.top)) && (p >= 20 <==> In(x, t.middle)) && (p >= 15 <==> In(x, t.outer))
  {
    if In(x, t.top) then 25
    else if In(x, t.middle) then 20
    else if In(x, t.outer) then 15
    else 10
  }

  /** The four band tables are nested. */
  lemma TablesNested()
    ensures Nested(PhBands) && Nested(NitrogenBands) && Nested(PhosphorusBands) && Nested(PotassiumBands)
  {
  }

  /** Band ends are inclusive. */
  lemma BandBoundaries()
    ensures BandPoints(6.0, PhBands) == 25 && BandPoints(7.5, PhBands) == 25
    ensures BandPoints(5.0, PhBands) == 15 && BandPoints(4.9, PhBands) == 10
    ensures BandPoints(30.0, NitrogenBands) == 25 && BandPoints(60.0, NitrogenBands) == 25
    ensures BandPoints(14.0, NitrogenBands) == 10
  {
  }

  /** The points of pH, nitrogen, phosphorus and potassium added up. */
  function BandSum(d: SoilData): (s: int)
    ensures 40 <= s <= 100
  {
    BandPoints(d.ph, PhBands) + BandPoints(d.nitrogen, NitrogenBands) +
    BandPoints(d.phosphorus, PhosphorusBands) + BandPoints(d.potassium, PotassiumBands)
  }

  /**
   * The composite score: the rounded mean of the four band points. Every
   * reading earns between 10 and 25 points, so the score lies in [10, 25],
   * not in the 0 to 100 scale the status thresholds are written for.
   */
  function HealthScore(d: SoilData): (score: int)
    ensures 10 <= score <= 25
  {
    var s := BandSum(d);
    RoundMonotone(40 as real / 4.0, s as real / 4.0);
    RoundMonotone(s as real / 4.0, 100 as real / 4.0);
    RoundOfInt(10);
    RoundOfInt(25);
    Round(s as real / 4.0)
  }

  /** True when every one of the four readings lies in its top band. */
  predicate AllTop(d: SoilData)
  {
    In(d.ph, PhBands.top) && In(d.nitrogen, NitrogenBands.top) &&
    In(d.phosphorus, PhosphorusBands.top) && In(d.potassium, PotassiumBands.top)
  }

  /** True when every one of the four readings lies outside its outer band. */
  predicate AllOutside(d: SoilData)
  {
    !In(d.ph, PhBands.outer) && !In(d.nitrogen, NitrogenBands.outer) &&
    !In(d.phosphorus, PhosphorusBands.outer) && !In(d.potassium, PotassiumBands.outer)
  }

  /** The maximum 25 is reached exactly at all-top readings, the minimum 10 exactly at all-outside ones. */
  lemma HealthScoreExtremes(d: SoilData)
    ensures HealthScore(d) == 25 <==> AllTop(d)
    ensures HealthScore(d) == 10 <==> AllOutside(d)
  {
    TablesNested();
    var s := BandSum(d);
    var score := HealthScore(d);
    assert score as real - 0.5 <= s as real / 4.0 < score as real + 0.5;
    if score == 25 {
      assert s >= 98;
    }
    if AllTop(d) {
      assert s == 100;
      RoundOfInt(25);
    }
    if score == 10 {
      assert s < 42;
    }
    if AllOutside(d) {
      assert s == 40;
      RoundOfInt(10);
    }
  }

  /**
   * The step-by-step computation: each reading adds the points of its
   * first matching band to `score` and counts one factor; the result is
   * the rounded quotient.
   */
  method CalculateHealthScore(d: SoilData) returns (result: int)
    ensures result == HealthScore(d)
    ensures 10 <= result <= 25
  {
    var score := 0;
    var factors := 0;

    if d.ph >= 6.0 && d.ph <= 7.5 {
      score := score + 25;
    } else if d.ph >= 5.5 && d.ph <= 8.0 {
      score := score + 20;
    } else if d.ph >= 5.0 && d.ph <= 8.5 {
      score := score + 15;
    } else {
      score := score + 10;
    }
    factors := factors + 1;
    assert score == BandPoints(d.ph, PhBands);

    if d.nitrogen >= 30.0 && d.nitrogen <= 60.0 {
      score := score + 25;
    } else if d.nitrogen >= 20.0 && d.nitrogen <= 80.0 {
      score := score + 20;
    } else if d.nitrogen >= 15.0 && d.nitrogen <= 100.0 {
      score := score + 15;
    } else {
      score := score + 10;
    }
    factors := factors + 1;
    assert score == BandPoints(d.ph, PhBands) + BandPoints(d.nitrogen, NitrogenBands);

    if d.phosphorus >= 15.0 && d.phosphorus <= 40.0 {
      score := score + 25;
    } else if d.phosphorus >= 10.0 && d.phosphorus <= 50.0 {
      score := score + 20;
    } else if d.phosphorus >= 8.0 && d.phosphorus <= 60.0 {
      score := score + 15;
    } else {
      score := score + 10;
    }
    factors := factors + 1;
    assert score == BandPoints(d.ph, PhBands) + BandPoints(d.nitrogen, NitrogenBands) +
                    BandPoints(d.phosphorus, PhosphorusBands);

    if d.potassium >= 25.0 && d.potassium <= 80.0 {
      score := score + 25;
    } else if d.potassium >= 20.0 && d.potassium <= 100.0 {
      score := score + 20;
    } else if d.potassium >= 15.0 && d.potassium <= 120.0 {
      score := score + 15;
    } else {
      score := score + 10;
    }
    factors := factors + 1;
    assert score == BandSum(d) && factors == 4;
    MeanOfFactors(d, score, factors);
    result := Round(score as real / factors as real);
  }

  /** The rounded mean of the accumulated points over four factors is the health score. */
  lemma MeanOfFactors(d: SoilData, score: int, factors: int)
    requires score == BandSum(d) && factors == 4
    ensures Round(score as real / factors as real) == HealthScore(d)
  {
    assert factors as real == 4.0;
    assert score as real / factors as real == BandSum(d) as real / 4.0;
  }

  datatype HealthStatus = Excellent | Good | Fair | Poor

  /** The label of a score: 80 and up Excellent, 60 Good, 40 Fair, below that Poor. */
  function GetHealthStatus(score: int): (s: HealthStatus)
    ensures s == Excellent <==> score >= 80
    ensures s == Good <==> 60 <= score < 80
    ensures s == Fair <==> 40 <= score < 60
    ensures s == Poor <==> score < 40
  {
    if score >= 80 then Excellent
    else if score >= 60 then Good
    else if score >= 40 then Fair
    else Poor
  }

  /** Since the score never exceeds 25, every sample is labelled Poor. */
  lemma AlwaysPoor(d: SoilData)
    ensures GetHealthStatus(HealthScore(d)) == Poor
  {
  }

  const SoilTestingTip := "Consider soil testing every 6 months to monitor improvements"
  const OrganicMatterTip := "Add organic matter (compost, manure) to improve soil structure"
  const CropRotationTip := "Practice crop rotation to maintain soil fertility"
  const CoverCropsTip := "Use cover crops during fallow periods"

  /** The improvement suggestions: the soil-testing tip first when the score is below 60, then three fixed tips. */
  function Suggestions(score: int): (tips: seq<string>)
    ensures SoilTestingTip in tips <==> score < 60
    ensures |tips| == if score < 60 then 4 else 3
    ensures tips[|tips| - 3..] == [OrganicMatterTip, CropRotationTip, CoverCropsTip]
  {
    (if score < 60 then [SoilTestingTip] else []) + [OrganicMatterTip, CropRotationTip, CoverCropsTip]
  }

  /** Given the score range, the soil-testing tip is always shown. */
  lemma SoilTestingAlwaysSuggested(d: SoilData)
    ensures Suggestions(HealthScore(d)) == [SoilTestingTip, OrganicMatterTip, CropRotationTip, CoverCropsTip]
  {
  }

  datatype FactorKind = Favourable | Warning

  /** One line of environmental commentary: 'good' (Favourable) or 'warning'. */
  datatype EnvFactor = EnvFactor(kind: FactorKind, message: string)

  const LowTemperature := "Low temperature may limit crop growth"
  const HighTemperature := "High temperature may stress plants"
  const FavourableTemperature := "Temperature is favorable for most crops"
  const LowHumidity := "Low humidity may require irrigation management"
  const HighHumidity := "High humidity increases disease risk"
  const OptimalHumidity := "Humidity levels are optimal"
  const LowRainfall := "Low rainfall requires irrigation planning"
  const HighRainfall := "Good rainfall for rain-fed agriculture"
  const ModerateRainfall := "Moderate rainfall suitable for various crops"

  /** Temperature is favourable exactly in [15, 35]; below and above give distinct warnings. */
  function TemperatureFactor(t: real): (f: EnvFactor)
    ensures f.kind == Favourable <==> 15.0 <= t <= 35.0
    ensures f == EnvFactor(Warning, LowTemperature) <==> t < 15.0
    ensures f == EnvFactor(Warning, HighTemperature) <==> t > 35.0
  {
    if t < 15.0 then EnvFactor(Warning, LowTemperature)
    else if t > 35.0 then EnvFactor(Warning, HighTemperature)
    else EnvFactor(Favourable, FavourableTemperature)
  }

  /** Humidity is favourable exactly in [40, 80]; below and above give distinct warnings. */
  function HumidityFactor(h: real): (f: EnvFactor)
    ensures f.kind == Favourable <==> 40.0 <= h <= 80.0
    ensures f == EnvFactor(Warning, LowHumidity) <==> h < 40.0
    ensures f == EnvFactor(Warning, HighHumidity) <==> h > 80.0
  {
    if h < 40.0 then EnvFactor(Warning, LowHumidity)
    else if h > 80.0 then EnvFactor(Warning, HighHumidity)
    else EnvFactor(Favourable, OptimalHumidity)
  }

  /** Rainfall warns only below 50; above 200 and in [50, 200] are both favourable, with different messages. */
  function RainfallFactor(r: real): (f: EnvFactor)
    ensures f.kind == Warning <==> r < 50.0
    ensures f == EnvFactor(Favourable, HighRainfall) <==> r > 200.0
    ensures f == EnvFactor(Favourable, ModerateRainfall) <==> 50.0 <= r <= 200.0
  {
    if r < 50.0 then EnvFactor(Warning, LowRainfall)
    else if r > 200.0 then EnvFactor(Favourable, HighRainfall)
    else EnvFactor(Favourable, ModerateRainfall)
  }

  /**
   * Builds the commentary by pushing one entry per reading: always three
   * entries, temperature, humidity, rainfall, in that order.
   */
  method GetEnvironmentalFactors(d: SoilData) returns (factors: seq<EnvFactor>)
    ensures factors == [TemperatureFactor(d.temperature), HumidityFactor(d.humidity), RainfallFactor(d.rainfall)]
    ensures factors[0].kind == Favourable <==> 15.0 <= d.temperature <= 35.0
    ensures factors[1].kind == Favourable <==> 40.0 <= d.humidity <= 80.0
    ensures factors[2].kind == Warning <==> d.rainfall < 50.0
  {
    factors := [];

    if d.temperature < 15.0 {
      factors := factors + [EnvFactor(Warning, LowTemperature)];
    } else if d.temperature > 35.0 {
      factors := factors + [EnvFactor(Warning, HighTemperature)];
    } else {
      factors := factors + [EnvFactor(Favourable, FavourableTemperature)];
    }

    if d.humidity < 40.0 {
      factors := factors + [EnvFactor(Warning, LowHumidity)];
    } else if d.humidity > 80.0 {
      factors := factors + [EnvFactor(Warning, HighHumidity)];
    } else {
      factors := factors + [EnvFactor(Favourable, OptimalHumidity)];
    }

    if d.rainfall < 50.0 {
      factors := factors + [EnvFactor(Warning, LowRainfall)];
    } else if d.rainfall > 200.0 {
      factors := factors + [EnvFactor(Favourable, HighRainfall)];
    } else {
      factors := factors + [EnvFactor(Favourable, ModerateRainfall)];
    }
  }
}
