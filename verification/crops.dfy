/**
 * The crop suitability engine: six independent crop rules, each gated by
 * an eligibility test on the readings, scored from a base value with
 * adjustments and annotated with reasons and warnings; the eligible crops
 * are stably sorted by descending suitability and cut to the first four.
 */
module Crops {
  import opened Soil

  datatype CropKind = Rice | Wheat | Maize | Potato | Sugarcane | Cotton

  /** The order in which the rules are evaluated, and so the order ties keep. */
  const RuleOrder: seq<CropKind> := [Rice, Wheat, Maize, Potato, Sugarcane, Cotton]

  /** The position of a crop's rule in `RuleOrder`. */
  function RuleIndex(k: CropKind): (i: nat)
    ensures i < |RuleOrder| && RuleOrder[i] == k
  {
    match k
    case Rice => 0
    case Wheat => 1
    case Maize => 2
    case Potato => 3
    case Sugarcane => 4
    case Cotton => 5
  }

  /** The displayed crop name. */
  function Name(k: CropKind): string
  {
    match k
    case Rice => "Rice"
    case Wheat => "Wheat"
    case Maize => "Maize"
    case Potato => "Potato"
    case Sugarcane => "Sugarcane"
    case Cotton => "Cotton"
  }

  /** No two crops share a name: the names already differ in their first letter. */
  lemma NameInjective(a: CropKind, b: CropKind)
    ensures Name(a) == Name(b) ==> a == b
  {
    if Name(a) == Name(b) {
      assert Name(a)[0] == Name(b)[0];
    }
  }

  /**
   * One recommended crop. `warnings` is `None` when the rule raised no
   * warning, never `Some([])`. The fixed yield, price and season texts
   * depend on the kind alone and are given by the functions below.
   */
  datatype Crop = Crop(
    kind: CropKind,
    suitability: int,
    reasons: seq<Note>,
    warnings: Option<seq<Note>>
  )

  /** The reason and warning notes the rules attach to a crop. */
  datatype Note =
    RiceRainfallReason
    | RiceHumidityReason
    | RiceNitrogenWarning
    | RicePhWarning
    | WheatTemperatureReason
    | WheatRainfallReason
    | WheatNitrogenReason
    | WheatNitrogenWarning
    | WheatPhWarning
    | MaizeTemperatureReason
    | MaizeNutrientReason
    | MaizePhWarning
    | PotatoTemperatureReason
    | PotatoPotassiumReason
    | PotatoPotassiumWarning
    | SugarcaneRainfallReason
    | SugarcaneNitrogenReason
    | SugarcaneNitrogenWarning
    | CottonClimateReason
    | CottonPotassiumReason

  /** The text a note is displayed as. */
  function Text(n: Note): string
  {
    match n
    case RiceRainfallReason => "Good rainfall for rice cultivation"
    case RiceHumidityReason => "Suitable humidity levels"
    case RiceNitrogenWarning => "Low nitrogen levels - increase fertilizer"
    case RicePhWarning => "pH not optimal for rice"
    case WheatTemperatureReason => "Optimal temperature range"
    case WheatRainfallReason => "Suitable rainfall for wheat"
    case WheatNitrogenReason => "Good nitrogen levels"
    case WheatNitrogenWarning => "Consider nitrogen supplementation"
    case WheatPhWarning => "pH adjustment recommended"
    case MaizeTemperatureReason => "Good temperature for maize growth"
    case MaizeNutrientReason => "Excellent NPK levels for maize"
    case MaizePhWarning => "pH optimization needed"
    case PotatoTemperatureReason => "Suitable temperature range for potatoes"
    case PotatoPotassiumReason => "High potassium ideal for tuber development"
    case PotatoPotassiumWarning => "Increase potassium fertilization"
    case SugarcaneRainfallReason => "High rainfall suitable for sugarcane"
    case SugarcaneNitrogenReason => "High nitrogen supports sugarcane growth"
    case SugarcaneNitrogenWarning => "Requires high nitrogen fertilization"
    case CottonClimateReason => "Warm climate suitable for cotton"
    case CottonPotassiumReason => "Good potassium for fiber quality"
  }

  /** Each crop's fixed expected-yield text. */
  function ExpectedYield(k: CropKind): string
  {
    match k
    case Rice => "4-6 tons/hectare"
    case Wheat => "3-5 tons/hectare"
    case Maize => "5-8 tons/hectare"
    case Potato => "25-35 tons/hectare"
    case Sugarcane => "60-80 tons/hectare"
    case Cotton => "15-25 quintals/hectare"
  }

  /** Each crop's fixed market-price text. */
  function MarketPrice(k: CropKind): string
  {
    match k
    case Rice => "₹20-25/kg"
    case Wheat => "₹18-22/kg"
    case Maize => "₹15-20/kg"
    case Potato => "₹8-15/kg"
    case Sugarcane => "₹2.5-3.5/kg"
    case Cotton => "₹50-70/kg"
  }

  /** Each crop's fixed growing-season text. */
  function Season(k: CropKind): string
  {
    match k
    case Rice => "Kharif (Jun-Nov)"
    case Wheat => "Rabi (Nov-Apr)"
    case Maize => "Kharif/Rabi"
    case Potato => "Rabi (Oct-Mar)"
    case Sugarcane => "Year-round"
    case Cotton => "Kharif (Apr-Oct)"
  }

  // ---------------------------------------------------------------------
  // The rule table

  /**
   * The eligibility test of each crop; a crop failing it is not listed at
   * all. Every test asks for a temperature between 15 and 35.
   */
  predicate Gate(k: CropKind, d: SoilData)
    ensures Gate(k, d) ==> In(d.temperature, Range(15.0, 35.0))
  {
    match k
    case Rice => d.rainfall >= 100.0 && d.humidity >= 60.0 && In(d.temperature, Range(20.0, 35.0))
    case Wheat => In(d.temperature, Range(15.0, 25.0)) && In(d.rainfall, Range(50.0, 100.0))
    case Maize => In(d.temperature, Range(20.0, 30.0)) && d.rainfall >= 60.0
    case Potato => In(d.temperature, Range(15.0, 25.0)) && d.humidity <= 80.0
    case Sugarcane => In(d.temperature, Range(20.0, 35.0)) && d.rainfall >= 150.0
    case Cotton => In(d.temperature, Range(25.0, 35.0)) && In(d.rainfall, Range(50.0, 150.0))
  }

  /** The score every eligible crop starts from. */
  function Base(k: CropKind): int
  {
    match k
    case Rice => 85
    case Wheat => 80
    case Maize => 75
    case Potato => 70
    case Sugarcane => 65
    case Cotton => 60
  }

  /** The suitability: the base plus each adjustment whose condition holds. */
  function Score(k: CropKind, d: SoilData): (s: int)
    ensures 60 <= s <= 100
    ensures k == Rice ==> s == 60 || s == 70 || s == 75 || s == 85
    ensures k == Wheat ==> s == 80 || s == 85 || s == 90 || s == 95
    ensures k == Maize ==> s == 75 || s == 85 || s == 90 || s == 100
    ensures k == Potato ==> s == 70 || s == 80 || s == 85 || s == 95
    ensures k == Sugarcane ==> s == 65 || s == 85
    ensures k == Cotton ==> s == 60 || s == 70 || s == 75 || s == 85
  {
    Base(k) +
    match k
    case Rice =>
      (if d.nitrogen < 30.0 then -15 else 0) + (if !In(d.ph, Range(5.5, 7.0)) then -10 else 0)
    case Wheat =>
      (if d.nitrogen >= 40.0 then 10 else 0) + (if In(d.ph, Range(6.0, 7.5)) then 5 else 0)
    case Maize =>
      (if d.nitrogen >= 35.0 && d.phosphorus >= 25.0 then 15 else 0) + (if In(d.ph, Range(5.8, 7.0)) then 10 else 0)
    case Potato =>
      (if d.potassium >= 40.0 then 15 else 0) + (if In(d.ph, Range(5.0, 6.5)) then 10 else 0)
    case Sugarcane =>
      if d.nitrogen >= 50.0 then 20 else 0
    case Cotton =>
      (if d.potassium >= 35.0 then 15 else 0) + (if In(d.ph, Range(5.8, 8.0)) then 10 else 0)
  }

  /** The reasons every eligible crop of the kind is given. */
  function BaseReasons(k: CropKind): (rs: seq<Note>)
    ensures |rs| >= 1
  {
    match k
    case Rice => [RiceRainfallReason, RiceHumidityReason]
    case Wheat => [WheatTemperatureReason, WheatRainfallReason]
    case Maize => [MaizeTemperatureReason]
    case Potato => [PotatoTemperatureReason]
    case Sugarcane => [SugarcaneRainfallReason]
    case Cotton => [CottonClimateReason]
  }

  /** The nutrient condition that earns a crop its extra reason; rice has none. */
  predicate NutrientBonus(k: CropKind, d: SoilData)
  {
    match k
    case Rice => false
    case Wheat => d.nitrogen >= 40.0
    case Maize => d.nitrogen >= 35.0 && d.phosphorus >= 25.0
    case Potato => d.potassium >= 40.0
    case Sugarcane => d.nitrogen >= 50.0
    case Cotton => d.potassium >= 35.0
  }

  function BonusReason(k: CropKind): Note
    requires k != Rice
  {
    match k
    case Wheat => WheatNitrogenReason
    case Maize => MaizeNutrientReason
    case Potato => PotatoPotassiumReason
    case Sugarcane => SugarcaneNitrogenReason
    case Cotton => CottonPotassiumReason
  }

  /** The base reasons, then the nutrient reason when the bonus applies. */
  function Reasons(k: CropKind, d: SoilData): (rs: seq<Note>)
    ensures |rs| == |BaseReasons(k)| + (if NutrientBonus(k, d) then 1 else 0)
    ensures |rs| >= 1
    ensures rs[..|BaseReasons(k)|] == BaseReasons(k)
  {
    BaseReasons(k) + (if NutrientBonus(k, d) then [BonusReason(k)] else [])
  }

  /**
   * The warnings a rule raises, in the order it raises them. A rule warns
   * exactly when its crop missed a bonus or took a penalty that a warning
   * covers, so a crop without warnings has one of its top scores.
   */
  function Warnings(k: CropKind, d: SoilData): (ws: seq<Note>)
    ensures |ws| <= 2
    ensures k == Rice ==> (ws == [] <==> Score(k, d) == 85)
    ensures k == Wheat ==> (ws == [] <==> Score(k, d) == 95)
    ensures k == Maize ==> (ws == [] <==> Score(k, d) == 85 || Score(k, d) == 100)
    ensures k == Potato ==> (ws == [] <==> Score(k, d) >= 85)
    ensures k == Sugarcane ==> (ws == [] <==> Score(k, d) == 85)
    ensures k == Cotton ==> ws == []
  {
    match k
    case Rice =>
      (if d.nitrogen < 30.0 then [RiceNitrogenWarning] else []) +
      (if !In(d.ph, Range(5.5, 7.0)) then [RicePhWarning] else [])
    case Wheat =>
      (if d.nitrogen >= 40.0 then [] else [WheatNitrogenWarning]) +
      (if In(d.ph, Range(6.0, 7.5)) then [] else [WheatPhWarning])
    case Maize =>
      if In(d.ph, Range(5.8, 7.0)) then [] else [MaizePhWarning]
    case Potato =>
      if d.potassium >= 40.0 then [] else [PotatoPotassiumWarning]
    case Sugarcane =>
      if d.nitrogen >= 50.0 then [] else [SugarcaneNitrogenWarning]
    case Cotton => []
  }

  /** The entry a rule produces for an eligible crop. */
  function Assess(k: CropKind, d: SoilData): (c: Crop)
    ensures c.kind == k
    ensures 60 <= c.suitability <= 100
    ensures |BaseReasons(k)| <= |c.reasons| && c.reasons[..|BaseReasons(k)|] == BaseReasons(k)
    ensures c.warnings.Some? ==> c.warnings.value != []
    ensures k == Cotton ==> c.warnings.None?
  {
    var ws := Warnings(k, d);
    Crop(k, Score(k, d), Reasons(k, d), if |ws| > 0 then Some(ws) else None)
  }

  /** The entry of one rule, if its crop is eligible. */
  function Slot(k: CropKind, d: SoilData): seq<Crop>
  {
    if Gate(k, d) then [Assess(k, d)] else []
  }

  /** Strictly increasing rule positions: the order the rules push their crops in. */
  predicate InRuleOrder(s: seq<Crop>)
  {
    forall i, j :: 0 <= i < j < |s| ==> RuleIndex(s[i].kind) < RuleIndex(s[j].kind)
  }

  /** Strictly increasing rule positions of a list of rules. */
  predicate RulesInOrder(ks: seq<CropKind>)
  {
    forall i, j :: 0 <= i < j < |ks| ==> RuleIndex(ks[i]) < RuleIndex(ks[j])
  }

  /** `RuleOrder` lists the rules by increasing position, each once. */
  lemma RuleOrderInOrder()
    ensures RulesInOrder(RuleOrder)
  {
    assert RuleOrder[0] == Rice && RuleOrder[1] == Wheat && RuleOrder[2] == Maize;
    assert RuleOrder[3] == Potato && RuleOrder[4] == Sugarcane && RuleOrder[5] == Cotton;
    forall i | 0 <= i < |RuleOrder| ensures RuleIndex(RuleOrder[i]) == i {
      assert i == 0 || i == 1 || i == 2 || i == 3 || i == 4 || i == 5;
    }
  }

  /** The entries the rules `ks` push, run in that order. */
  function CandidatesFrom(ks: seq<CropKind>, d: SoilData): seq<Crop>
  {
    if |ks| == 0 then [] else Slot(ks[0], d) + CandidatesFrom(ks[1..], d)
  }

  /**
   * Running the rules `ks` pushes exactly one entry for each of them whose
   * gate holds, and nothing else.
   */
  lemma {:induction false} CandidatesFromExact(ks: seq<CropKind>, d: SoilData)
    ensures forall c :: c in CandidatesFrom(ks, d) ==> c.kind in ks && Gate(c.kind, d) && c == Assess(c.kind, d)
    ensures forall k :: k in ks && Gate(k, d) ==> Assess(k, d) in CandidatesFrom(ks, d)
  {
    if |ks| > 0 {
      CandidatesFromExact(ks[1..], d);
      assert forall k :: k in ks ==> k == ks[0] || k in ks[1..];
    }
  }

  /** Rules run in rule order push their entries in rule order. */
  lemma {:induction false} CandidatesFromOrdered(ks: seq<CropKind>, d: SoilData)
    requires RulesInOrder(ks)
    ensures InRuleOrder(CandidatesFrom(ks, d))
  {
    if |ks| > 0 {
      var rest := ks[1..];
      RulesInOrderTail(ks);
      CandidatesFromOrdered(rest, d);
      CandidatesFromExact(rest, d);
      var cs := CandidatesFrom(ks, d);
      forall i, j | 0 <= i < j < |cs| ensures RuleIndex(cs[i].kind) < RuleIndex(cs[j].kind) {
        if i == 0 && Gate(ks[0], d) {
          assert cs[j] in CandidatesFrom(rest, d);
          var m :| 0 <= m < |rest| && rest[m] == cs[j].kind;
          assert ks[m + 1] == cs[j].kind;
        }
      }
    }
  }

  /** The eligible crops in rule order, before sorting. */
  function Candidates(d: SoilData): seq<Crop>
  {
    CandidatesFrom(RuleOrder, d)
  }

  /**
   * The eligible crops are exactly the assessments of the crops whose gate
   * holds, listed in rule order.
   */
  lemma CandidatesExact(d: SoilData)
    ensures forall c :: c in Candidates(d) ==> Gate(c.kind, d) && c == Assess(c.kind, d)
    ensures forall k :: Gate(k, d) <==> Assess(k, d) in Candidates(d)
    ensures InRuleOrder(Candidates(d))
  {
    CandidatesFromExact(RuleOrder, d);
    RuleOrderInOrder();
    CandidatesFromOrdered(RuleOrder, d);
    forall k ensures k in RuleOrder {
      assert RuleOrder[RuleIndex(k)] == k;
    }
  }

  /** Running the rules `[k] + ks` pushes `k`'s entry, then those of `ks`. */
  lemma CandidatesFromCons(k: CropKind, ks: seq<CropKind>, d: SoilData)
    ensures CandidatesFrom([k] + ks, d) == Slot(k, d) + CandidatesFrom(ks, d)
  {
    assert ([k] + ks)[1..] == ks;
  }

  /** Concatenation regrouped from the right to the left. */
  lemma Regroup(a: seq<Crop>, b: seq<Crop>, c: seq<Crop>, d: seq<Crop>, e: seq<Crop>, f: seq<Crop>)
    ensures a + (b + (c + (d + (e + f)))) == a + b + c + d + e + f
  {
  }

  /** The pushes, rule by rule, that `Candidates` stands for. */
  lemma CandidatesUnfold(d: SoilData)
    ensures Candidates(d) ==
      Slot(Rice, d) + Slot(Wheat, d) + Slot(Maize, d) + Slot(Potato, d) + Slot(Sugarcane, d) + Slot(Cotton, d)
  {
    var c6 := CandidatesFrom([Cotton], d);
    assert c6 == Slot(Cotton, d) by {
      CandidatesFromCons(Cotton, [], d);
      assert [Cotton] + [] == [Cotton];
      assert CandidatesFrom([], d) == [];
      assert Slot(Cotton, d) + [] == Slot(Cotton, d);
    }
    var c5 := CandidatesFrom([Sugarcane, Cotton], d);
    assert c5 == Slot(Sugarcane, d) + c6 by {
      CandidatesFromCons(Sugarcane, [Cotton], d);
    }
    var c4 := CandidatesFrom([Potato, Sugarcane, Cotton], d);
    assert c4 == Slot(Potato, d) + c5 by {
      CandidatesFromCons(Potato, [Sugarcane, Cotton], d);
    }
    var c3 := CandidatesFrom([Maize, Potato, Sugarcane, Cotton], d);
    assert c3 == Slot(Maize, d) + c4 by {
      CandidatesFromCons(Maize, [Potato, Sugarcane, Cotton], d);
    }
    var c2 := CandidatesFrom([Wheat, Maize, Potato, Sugarcane, Cotton], d);
    assert c2 == Slot(Wheat, d) + c3 by {
      CandidatesFromCons(Wheat, [Maize, Potato, Sugarcane, Cotton], d);
    }
    assert Candidates(d) == Slot(Rice, d) + c2 by {
      CandidatesFromCons(Rice, [Wheat, Maize, Potato, Sugarcane, Cotton], d);
      assert [Rice] + [Wheat, Maize, Potato, Sugarcane, Cotton] == RuleOrder;
    }
    Regroup(Slot(Rice, d), Slot(Wheat, d), Slot(Maize, d), Slot(Potato, d), Slot(Sugarcane, d), Slot(Cotton, d));
  }

  // ---------------------------------------------------------------------
  // Sorting and truncation

  /** Non-increasing suitability. */
  predicate Sorted(s: seq<Crop>)
  {
    forall i, j :: 0 <= i < j < |s| ==> s[i].suitability >= s[j].suitability
  }

  /** Entries of equal suitability appear in rule order. */
  predicate TiesInRuleOrder(s: seq<Crop>)
  {
    forall i, j :: 0 <= i < j < |s| && s[i].suitability == s[j].suitability ==>
      RuleIndex(s[i].kind) < RuleIndex(s[j].kind)
  }

  /**
   * Where a stable descending insertion puts `x`: after every entry with a
   * strictly higher suitability at the front of `t`.
   */
  function InsertPos(x: Crop, t: seq<Crop>): (p: nat)
    ensures p <= |t|
    ensures forall i :: 0 <= i < p ==> t[i].suitability > x.suitability
    ensures p < |t| ==> t[p].suitability <= x.suitability
  {
    if |t| == 0 || t[0].suitability <= x.suitability then 0
    else 1 + InsertPos(x, t[1..])
  }

  /** `x` placed at its insertion position. */
  function Insert(x: Crop, t: seq<Crop>): (r: seq<Crop>)
    ensures |r| == |t| + 1
  {
    var p := InsertPos(x, t);
    t[..p] + [x] + t[p..]
  }

  /** Insertion adds `x` and keeps every other entry. */
  lemma InsertPermutes(x: Crop, t: seq<Crop>)
    ensures multiset(Insert(x, t)) == multiset(t) + multiset{x}
  {
    var p := InsertPos(x, t);
    assert t == t[..p] + t[p..];
  }

  /** Insertion keeps a sorted list sorted. */
  lemma InsertSorted(x: Crop, t: seq<Crop>)
    requires Sorted(t)
    ensures Sorted(Insert(x, t))
  {
    var p := InsertPos(x, t);
    var r := Insert(x, t);
    assert r == t[..p] + [x] + t[p..];
    forall i, j | 0 <= i < j < |r| ensures r[i].suitability >= r[j].suitability {
      if j < p {
        assert r[i] == t[i] && r[j] == t[j];
      } else if j == p {
        assert r[i] == t[i];
      } else if i == p {
        assert r[j] == t[j - 1];
      } else if i < p {
        assert r[i] == t[i] && r[j] == t[j - 1];
      } else {
        assert r[i] == t[i - 1] && r[j] == t[j - 1];
      }
    }
  }

  /**
   * The crops sorted by descending suitability with a stable sort
   * (insertion sort from the back).
   */
  function SortBySuitability(s: seq<Crop>): (r: seq<Crop>)
    ensures |r| == |s|
  {
    if |s| == 0 then []
    else Insert(s[0], SortBySuitability(s[1..]))
  }

  /** Sorting keeps exactly the entries it was given. */
  lemma {:induction false} SortPermutes(s: seq<Crop>)
    ensures multiset(SortBySuitability(s)) == multiset(s)
  {
    if |s| > 0 {
      SortPermutes(s[1..]);
      InsertPermutes(s[0], SortBySuitability(s[1..]));
      assert s == [s[0]] + s[1..];
    }
  }

  /** Sorting yields non-increasing suitability. */
  lemma {:induction false} SortOrders(s: seq<Crop>)
    ensures Sorted(SortBySuitability(s))
  {
    if |s| > 0 {
      SortOrders(s[1..]);
      InsertSorted(s[0], SortBySuitability(s[1..]));
    }
  }

  /** Sorting a list sorts its tail, then inserts its head. */
  lemma SortCons(x: Crop, s: seq<Crop>)
    ensures SortBySuitability([x] + s) == Insert(x, SortBySuitability(s))
  {
    assert ([x] + s)[1..] == s;
  }

  /** A crop scoring at least the first entry goes in front. */
  lemma InsertFront(x: Crop, t: seq<Crop>)
    requires |t| == 0 || t[0].suitability <= x.suitability
    ensures Insert(x, t) == [x] + t
  {
  }

  /** A crop scoring less than the first entry goes after it. */
  lemma InsertSkip(x: Crop, t: seq<Crop>)
    requires |t| > 0 && t[0].suitability > x.suitability
    ensures Insert(x, t) == [t[0]] + Insert(x, t[1..])
  {
    var p := InsertPos(x, t[1..]);
    assert InsertPos(x, t) == p + 1;
    assert t[..p + 1] == [t[0]] + t[1..][..p];
    assert t[p + 1..] == t[1..][p..];
  }

  /** Inserting a crop that precedes every entry in rule order keeps ties in rule order. */
  lemma InsertKeepsTies(x: Crop, t: seq<Crop>)
    requires TiesInRuleOrder(t)
    requires forall y :: y in t ==> RuleIndex(x.kind) < RuleIndex(y.kind)
    ensures TiesInRuleOrder(Insert(x, t))
  {
    var p := InsertPos(x, t);
    var r := Insert(x, t);
    assert r == t[..p] + [x] + t[p..];
    forall i, j | 0 <= i < j < |r| && r[i].suitability == r[j].suitability
      ensures RuleIndex(r[i].kind) < RuleIndex(r[j].kind)
    {
      if j < p {
        assert r[i] == t[i] && r[j] == t[j];
      } else if j == p {
        // r[i] lies before the insertion point, so it scores more than x
      } else if i == p {
        assert r[j] == t[j - 1] && r[j] in t;
      } else if i < p {
        assert r[i] == t[i] && r[j] == t[j - 1];
      } else {
        assert r[i] == t[i - 1] && r[j] == t[j - 1];
      }
    }
  }

  /** The sort is stable: crops pushed in rule order keep rule order among equal scores. */
  lemma {:induction false} SortKeepsRuleOrderOnTies(s: seq<Crop>)
    requires InRuleOrder(s)
    ensures TiesInRuleOrder(SortBySuitability(s))
  {
    if |s| > 0 {
      var rest := s[1..];
      assert InRuleOrder(rest);
      SortKeepsRuleOrderOnTies(rest);
      var t := SortBySuitability(rest);
      SortPermutes(rest);
      forall y | y in t ensures RuleIndex(s[0].kind) < RuleIndex(y.kind) {
        assert y in multiset(t);
        assert y in rest;
      }
      InsertKeepsTies(s[0], t);
    }
  }

  /** `slice(0, n)`: the first `n` entries, or all of them when there are fewer. */
  function Take(s: seq<Crop>, n: nat): (r: seq<Crop>)
    ensures |r| == if |s| <= n then |s| else n
    ensures r == s[..|r|]
  {
    if |s| <= n then s else s[..n]
  }

  /** The recommendation list: the eligible crops, stably sorted, cut to four. */
  function Recommend(d: SoilData): (r: seq<Crop>)
    ensures |r| <= 4 && |r| <= |Candidates(d)|
  {
    Take(SortBySuitability(Candidates(d)), 4)
  }

  /** The number of crops whose gate holds. */
  function EligibleCount(d: SoilData): nat
  {
    |EligibleAmong(RuleOrder, d)|
  }

  /** Dropping the first rule of a list in rule order leaves a list in rule order without it. */
  lemma RulesInOrderTail(ks: seq<CropKind>)
    requires |ks| > 0 && RulesInOrder(ks)
    ensures RulesInOrder(ks[1..]) && ks[0] !in ks[1..]
  {
    var rest := ks[1..];
    forall i, j | 0 <= i < j < |rest| ensures RuleIndex(rest[i]) < RuleIndex(rest[j]) {
      assert rest[i] == ks[i + 1] && rest[j] == ks[j + 1];
    }
    forall m | 0 <= m < |rest| ensures rest[m] != ks[0] {
      assert RuleIndex(ks[0]) < RuleIndex(ks[m + 1]);
    }
  }

  /** The eligible crops among `ks`. */
  function EligibleAmong(ks: seq<CropKind>, d: SoilData): set<CropKind>
  {
    set k | k in ks && Gate(k, d)
  }

  /** The eligible crops among `ks` are the first one when eligible, and those among the rest. */
  lemma EligibleAmongCons(ks: seq<CropKind>, d: SoilData)
    requires |ks| > 0
    ensures EligibleAmong(ks, d) == (if Gate(ks[0], d) then {ks[0]} else {}) + EligibleAmong(ks[1..], d)
  {
    assert forall k :: k in ks <==> k == ks[0] || k in ks[1..];
  }

  /** Rules run in rule order push one entry per eligible rule. */
  lemma {:induction false} CandidatesFromCount(ks: seq<CropKind>, d: SoilData)
    requires RulesInOrder(ks)
    ensures |CandidatesFrom(ks, d)| == |EligibleAmong(ks, d)|
  {
    if |ks| > 0 {
      RulesInOrderTail(ks);
      CandidatesFromCount(ks[1..], d);
      EligibleAmongCons(ks, d);
      assert ks[0] !in EligibleAmong(ks[1..], d);
    }
  }

  /** One candidate per eligible crop. */
  lemma CandidatesCount(d: SoilData)
    ensures |Candidates(d)| == EligibleCount(d)
  {
    RuleOrderInOrder();
    CandidatesFromCount(RuleOrder, d);
  }

  /** Every listed crop is the assessment of an eligible crop. */
  lemma RecommendEligible(d: SoilData)
    ensures forall c :: c in Recommend(d) ==> Gate(c.kind, d) && c == Assess(c.kind, d)
  {
    var cs := Candidates(d);
    var sorted := SortBySuitability(cs);
    CandidatesExact(d);
    SortPermutes(cs);
    forall c | c in Recommend(d) ensures Gate(c.kind, d) && c == Assess(c.kind, d) {
      assert c in sorted;
      assert c in multiset(sorted);
      assert c in cs;
    }
  }

  /** At most four entries: as many as there are eligible crops, up to four. */
  lemma RecommendLength(d: SoilData)
    ensures |Recommend(d)| == if EligibleCount(d) <= 4 then EligibleCount(d) else 4
  {
    CandidatesCount(d);
  }

  /**
   * The list is sorted by non-increasing suitability, ties keep rule
   * order, and no crop name appears twice.
   */
  lemma RecommendOrdered(d: SoilData)
    ensures var r := Recommend(d);
      && Sorted(r)
      && TiesInRuleOrder(r)
      && (forall i, j :: 0 <= i < j < |r| ==> Name(r[i].kind) != Name(r[j].kind))
  {
    var cs := Candidates(d);
    var sorted := SortBySuitability(cs);
    var r := Recommend(d);
    assert r == sorted[..|r|];
    assert Sorted(r) by {
      SortOrders(cs);
    }
    assert TiesInRuleOrder(r) by {
      CandidatesExact(d);
      SortKeepsRuleOrderOnTies(cs);
    }
    RecommendEligible(d);
    forall i, j | 0 <= i < j < |r| ensures Name(r[i].kind) != Name(r[j].kind) {
      NameInjective(r[i].kind, r[j].kind);
      assert r[i] in r && r[j] in r;
    }
  }

  /** Cutting a sorted list keeps entries scoring at least as much as every dropped one. */
  lemma TakeKeepsHighest(s: seq<Crop>, n: nat)
    requires Sorted(s)
    ensures forall c, o :: c in s && c !in Take(s, n) && o in Take(s, n) ==> c.suitability <= o.suitability
  {
    var r := Take(s, n);
    forall c, o | c in s && c !in r && o in r ensures c.suitability <= o.suitability {
      var jc :| 0 <= jc < |s| && s[jc] == c;
      var io :| 0 <= io < |r| && r[io] == o;
      assert s[io] == o;
    }
  }

  /** Every eligible crop that was cut scores no more than any crop that was kept. */
  lemma RecommendCutScoresLower(d: SoilData)
    ensures forall c, o :: c in Candidates(d) && c !in Recommend(d) && o in Recommend(d) ==>
      c.suitability <= o.suitability
  {
    var cs := Candidates(d);
    var sorted := SortBySuitability(cs);
    SortOrders(cs);
    SortPermutes(cs);
    TakeKeepsHighest(sorted, 4);
    forall c | c in cs ensures c in sorted {
      assert c in multiset(cs);
    }
  }

  /** A temperature outside [15, 35] fails every gate, so nothing is recommended. */
  lemma NothingOutsideTemperatureRange(d: SoilData)
    requires d.temperature < 15.0 || d.temperature > 35.0
    ensures Recommend(d) == []
  {
    if Candidates(d) != [] {
      var c := Candidates(d)[0];
      assert c in Candidates(d);
      CandidatesExact(d);
    }
    assert SortBySuitability([]) == [];
  }

  /** Two entries scoring 65 and 85 sort to 85, 65. */
  lemma SortTwoExample(sugarcane: Crop, cotton: Crop)
    requires sugarcane.suitability == 65 && cotton.suitability == 85
    ensures SortBySuitability([sugarcane, cotton]) == [cotton, sugarcane]
  {
    assert SortBySuitability([cotton]) == [cotton] by {
      SortCons(cotton, []);
      InsertFront(cotton, []);
    }
    SortCons(sugarcane, [cotton]);
    InsertSkip(sugarcane, [cotton]);
    InsertFront(sugarcane, []);
  }

  /** Stable sorting of three entries scoring 80, 65, 85: the 85 moves to the front. */
  lemma SortThreeExample(potato: Crop, sugarcane: Crop, cotton: Crop)
    requires potato.suitability == 80 && sugarcane.suitability == 65 && cotton.suitability == 85
    ensures SortBySuitability([potato, sugarcane, cotton]) == [cotton, potato, sugarcane]
  {
    SortTwoExample(sugarcane, cotton);
    SortCons(potato, [sugarcane, cotton]);
    InsertSkip(potato, [cotton, sugarcane]);
    InsertFront(potato, [sugarcane]);
  }

  /** Four entries scoring 100, 80, 65, 85 sort to 100, 85, 80, 65. */
  lemma SortFourExample(maize: Crop, potato: Crop, sugarcane: Crop, cotton: Crop)
    requires maize.suitability == 100 && potato.suitability == 80
    requires sugarcane.suitability == 65 && cotton.suitability == 85
    ensures SortBySuitability([maize, potato, sugarcane, cotton]) == [maize, cotton, potato, sugarcane]
  {
    SortThreeExample(potato, sugarcane, cotton);
    assert [maize] + [potato, sugarcane, cotton] == [maize, potato, sugarcane, cotton];
    SortCons(maize, [potato, sugarcane, cotton]);
    InsertFront(maize, [cotton, potato, sugarcane]);
  }

  /**
   * Stable sorting of five entries scoring 85, 100, 80, 65, 85: the 100
   * first, then the two 85s in their original order, then 80 and 65.
   */
  lemma SortFiveExample(rice: Crop, maize: Crop, potato: Crop, sugarcane: Crop, cotton: Crop)
    requires rice.suitability == 85 && maize.suitability == 100 && potato.suitability == 80
    requires sugarcane.suitability == 65 && cotton.suitability == 85
    ensures SortBySuitability([rice, maize, potato, sugarcane, cotton]) == [maize, rice, cotton, potato, sugarcane]
  {
    SortFourExample(maize, potato, sugarcane, cotton);
    var four := [maize, cotton, potato, sugarcane];
    assert [rice] + [maize, potato, sugarcane, cotton] == [rice, maize, potato, sugarcane, cotton];
    SortCons(rice, [maize, potato, sugarcane, cotton]);
    assert four[1..] == [cotton, potato, sugarcane];
    InsertSkip(rice, four);
    InsertFront(rice, [cotton, potato, sugarcane]);
  }

  /** The form's default readings, as the form pre-fills them. */
  predicate DefaultReadings(d: SoilData)
  {
    && d.nitrogen == 40.0 && d.phosphorus == 30.0 && d.potassium == 35.0 && d.ph == 6.5
    && d.temperature == 25.0 && d.humidity == 65.0 && d.rainfall == 150.0
  }

  /** On the default readings every gate but wheat's holds. */
  lemma DefaultReadingsGates(d: SoilData)
    requires DefaultReadings(d)
    ensures !Gate(Wheat, d)
    ensures Gate(Rice, d) && Gate(Maize, d) && Gate(Potato, d) && Gate(Sugarcane, d) && Gate(Cotton, d)
  {
  }

  /** When every gate but wheat's holds, the other five crops are pushed in rule order. */
  lemma AllButWheatCandidates(d: SoilData)
    requires !Gate(Wheat, d)
    requires Gate(Rice, d) && Gate(Maize, d) && Gate(Potato, d) && Gate(Sugarcane, d) && Gate(Cotton, d)
    ensures Candidates(d) ==
      [Assess(Rice, d), Assess(Maize, d), Assess(Potato, d), Assess(Sugarcane, d), Assess(Cotton, d)]
  {
    CandidatesUnfold(d);
    assert Slot(Wheat, d) == [];
  }

  /** The default readings' suitabilities. */
  lemma DefaultReadingsScores(d: SoilData)
    requires DefaultReadings(d)
    ensures Score(Rice, d) == 85 && Score(Maize, d) == 100 && Score(Potato, d) == 80
    ensures Score(Sugarcane, d) == 65 && Score(Cotton, d) == 85
  {
  }

  /**
   * On the default readings every rule but wheat's fires: rice 85, maize
   * 100, potato 80, sugarcane 65, cotton 85, pushed in that order.
   */
  lemma DefaultReadingsCandidates(d: SoilData)
    requires DefaultReadings(d)
    ensures !Gate(Wheat, d)
    ensures Score(Rice, d) == 85 && Score(Maize, d) == 100 && Score(Potato, d) == 80
    ensures Score(Sugarcane, d) == 65 && Score(Cotton, d) == 85
    ensures Candidates(d) ==
      [Assess(Rice, d), Assess(Maize, d), Assess(Potato, d), Assess(Sugarcane, d), Assess(Cotton, d)]
  {
    DefaultReadingsGates(d);
    DefaultReadingsScores(d);
    AllButWheatCandidates(d);
  }

  /**
   * On the default readings the list is maize, rice, cotton, potato:
   * sugarcane (65) is cut, and cotton follows rice on their tie at 85.
   */
  lemma DefaultReadingsExample(d: SoilData)
    requires DefaultReadings(d)
    ensures Recommend(d) == [Assess(Maize, d), Assess(Rice, d), Assess(Cotton, d), Assess(Potato, d)]
  {
    DefaultReadingsCandidates(d);
    SortFiveExample(Assess(Rice, d), Assess(Maize, d), Assess(Potato, d), Assess(Sugarcane, d), Assess(Cotton, d));
  }

  // ---------------------------------------------------------------------
  // Reasons, warnings and labels

  /**
   * Warnings are absent exactly when the rule raised none: cotton never
   * carries any, sugarcane exactly when nitrogen is below 50, and so on
   * per crop; a present list is never empty.
   */
  lemma WarningsPresence(d: SoilData)
    ensures Assess(Rice, d).warnings.Some? <==> d.nitrogen < 30.0 || d.ph < 5.5 || d.ph > 7.0
    ensures Assess(Wheat, d).warnings.Some? <==> d.nitrogen < 40.0 || d.ph < 6.0 || d.ph > 7.5
    ensures Assess(Maize, d).warnings.Some? <==> d.ph < 5.8 || d.ph > 7.0
    ensures Assess(Potato, d).warnings.Some? <==> d.potassium < 40.0
    ensures Assess(Sugarcane, d).warnings.Some? <==> d.nitrogen < 50.0
    ensures Assess(Cotton, d).warnings == None
    ensures forall k :: Assess(k, d).warnings.Some? ==> Assess(k, d).warnings.value != []
  {
  }

  datatype SuitabilityText = Excellent | Good | Fair

  /** The label of a suitability: 80 and up Excellent, 60 and up Good, Fair below. */
  function GetSuitabilityText(suitability: int): (t: SuitabilityText)
    ensures t == Excellent <==> suitability >= 80
    ensures t == Good <==> 60 <= suitability < 80
    ensures t == Fair <==> suitability < 60
  {
    if suitability >= 80 then Excellent
    else if suitability >= 60 then Good
    else Fair
  }

  /** Every listed crop scores at least 60, so none is ever labelled Fair. */
  lemma NeverFair(d: SoilData)
    ensures forall c :: c in Recommend(d) ==> GetSuitabilityText(c.suitability) != Fair
  {
    RecommendEligible(d);
  }

  // ---------------------------------------------------------------------
  // The imperative engine

  /** The rice rule: pushes the rice entry onto `crops` when its gate holds. */
  method PushRice(d: SoilData, crops: seq<Crop>) returns (crops': seq<Crop>)
    ensures crops' == crops + Slot(Rice, d)
  {
    crops' := crops;
    if d.rainfall >= 100.0 && d.humidity >= 60.0 && d.temperature >= 20.0 && d.temperature <= 35.0 {
      var suitability := 85;
      var reasons := [RiceRainfallReason, RiceHumidityReason];
      var warnings: seq<Note> := [];
      if d.nitrogen < 30.0 {
        suitability := suitability - 15;
        warnings := warnings + [RiceNitrogenWarning];
      }
      if d.ph < 5.5 || d.ph > 7.0 {
        suitability := suitability - 10;
        warnings := warnings + [RicePhWarning];
      }
      assert suitability == Score(Rice, d);
      assert reasons == Reasons(Rice, d);
      assert warnings == Warnings(Rice, d);
      crops' := crops' + [Crop(Rice, suitability, reasons, if |warnings| > 0 then Some(warnings) else None)];
    }
  }

  /** The wheat rule: pushes the wheat entry onto `crops` when its gate holds. */
  method PushWheat(d: SoilData, crops: seq<Crop>) returns (crops': seq<Crop>)
    ensures crops' == crops + Slot(Wheat, d)
  {
    crops' := crops;
    if d.temperature >= 15.0 && d.temperature <= 25.0 && d.rainfall >= 50.0 && d.rainfall <= 100.0 {
      var suitability := 80;
      var reasons := [WheatTemperatureReason, WheatRainfallReason];
      var warnings: seq<Note> := [];
      if d.nitrogen >= 40.0 {
        suitability := suitability + 10;
        reasons := reasons + [WheatNitrogenReason];
      } else {
        warnings := warnings + [WheatNitrogenWarning];
      }
      if d.ph >= 6.0 && d.ph <= 7.5 {
        suitability := suitability + 5;
      } else {
        warnings := warnings + [WheatPhWarning];
      }
      assert suitability == Score(Wheat, d);
      assert reasons == Reasons(Wheat, d);
      assert warnings == Warnings(Wheat, d);
      crops' := crops' + [Crop(Wheat, suitability, reasons, if |warnings| > 0 then Some(warnings) else None)];
    }
  }

  /** The maize rule: pushes the maize entry onto `crops` when its gate holds. */
  method PushMaize(d: SoilData, crops: seq<Crop>) returns (crops': seq<Crop>)
    ensures crops' == crops + Slot(Maize, d)
  {
    crops' := crops;
    if d.temperature >= 20.0 && d.temperature <= 30.0 && d.rainfall >= 60.0 {
      var suitability := 75;
      var reasons := [MaizeTemperatureReason];
      var warnings: seq<Note> := [];
      if d.nitrogen >= 35.0 && d.phosphorus >= 25.0 {
        suitability := suitability + 15;
        reasons := reasons + [MaizeNutrientReason];
      }
      if d.ph >= 5.8 && d.ph <= 7.0 {
        suitability := suitability + 10;
      } else {
        warnings := warnings + [MaizePhWarning];
      }
      assert suitability == Score(Maize, d);
      assert reasons == Reasons(Maize, d);
      assert warnings == Warnings(Maize, d);
      crops' := crops' + [Crop(Maize, suitability, reasons, if |warnings| > 0 then Some(warnings) else None)];
    }
  }

  /** The potato rule: pushes the potato entry onto `crops` when its gate holds. */
  method PushPotato(d: SoilData, crops: seq<Crop>) returns (crops': seq<Crop>)
    ensures crops' == crops + Slot(Potato, d)
  {
    crops' := crops;
    if d.temperature >= 15.0 && d.temperature <= 25.0 && d.humidity <= 80.0 {
      var suitability := 70;
      var reasons := [PotatoTemperatureReason];
      var warnings: seq<Note> := [];
      if d.potassium >= 40.0 {
        suitability := suitability + 15;
        reasons := reasons + [PotatoPotassiumReason];
      } else {
        warnings := warnings + [PotatoPotassiumWarning];
      }
      if d.ph >= 5.0 && d.ph <= 6.5 {
        suitability := suitability + 10;
      }
      assert suitability == Score(Potato, d);
      assert reasons == Reasons(Potato, d);
      assert warnings == Warnings(Potato, d);
      crops' := crops' + [Crop(Potato, suitability, reasons, if |warnings| > 0 then Some(warnings) else None)];
    }
  }

  /** The sugarcane rule: pushes the sugarcane entry onto `crops` when its gate holds. */
  method PushSugarcane(d: SoilData, crops: seq<Crop>) returns (crops': seq<Crop>)
    ensures crops' == crops + Slot(Sugarcane, d)
  {
    crops' := crops;
    if d.temperature >= 20.0 && d.temperature <= 35.0 && d.rainfall >= 150.0 {
      var suitability := 65;
      var reasons := [SugarcaneRainfallReason];
      var warnings: seq<Note> := [];
      if d.nitrogen >= 50.0 {
        suitability := suitability + 20;
        reasons := reasons + [SugarcaneNitrogenReason];
      } else {
        warnings := warnings + [SugarcaneNitrogenWarning];
      }
      assert suitability == Score(Sugarcane, d);
      assert reasons == Reasons(Sugarcane, d);
      assert warnings == Warnings(Sugarcane, d);
      crops' := crops' + [Crop(Sugarcane, suitability, reasons, if |warnings| > 0 then Some(warnings) else None)];
    }
  }

  /** The cotton rule: pushes the cotton entry onto `crops` when its gate holds. */
  method PushCotton(d: SoilData, crops: seq<Crop>) returns (crops': seq<Crop>)
    ensures crops' == crops + Slot(Cotton, d)
  {
    crops' := crops;
    if d.temperature >= 25.0 && d.temperature <= 35.0 && d.rainfall >= 50.0 && d.rainfall <= 150.0 {
      var suitability := 60;
      var reasons := [CottonClimateReason];
      var warnings: seq<Note> := [];
      if d.potassium >= 35.0 {
        suitability := suitability + 15;
        reasons := reasons + [CottonPotassiumReason];
      }
      if d.ph >= 5.8 && d.ph <= 8.0 {
        suitability := suitability + 10;
      }
      assert suitability == Score(Cotton, d);
      assert reasons == Reasons(Cotton, d);
      assert warnings == Warnings(Cotton, d);
      crops' := crops' + [Crop(Cotton, suitability, reasons, if |warnings| > 0 then Some(warnings) else None)];
    }
  }

  /**
   * Runs the six rules in order, each pushing its crop when eligible,
   * then sorts by descending suitability and keeps the first four: the
   * list `Recommend` specifies, so the lemmas about `Recommend` above
   * (eligibility, length, order, stability) hold of the result.
   */
  method AnalyzeCrops(d: SoilData) returns (result: seq<Crop>)
    ensures result == Recommend(d)
  {
    var crops: seq<Crop> := [];
    crops := PushRice(d, crops);
    assert crops == Slot(Rice, d);
    crops := PushWheat(d, crops);
    crops := PushMaize(d, crops);
    crops := PushPotato(d, crops);
    crops := PushSugarcane(d, crops);
    crops := PushCotton(d, crops);
    assert crops == Candidates(d) by {
      CandidatesUnfold(d);
    }

    result := Take(SortBySuitability(crops), 4);
  }
}
