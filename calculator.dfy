/**
 * The footprint calculator page: the factor table, the form state and its update, the
 * weighted category sums with their floors, the band classifier and the recommendation list.
 */
module Calculator {
  import opened Records

  // ---------------------------------------------------------------------------------------
  // Form fields and the factor table
  // ---------------------------------------------------------------------------------------

  /** The twelve slider fields; each belongs to exactly one category. */
  datatype Field =
    | CarKm | PublicTransport | Flights
    | Electricity | Gas | AirConditioning
    | Meat | Dairy | FoodWaste
    | Shopping | Waste | Recycling

  function CategoryOf(f: Field): Category {
    match f
    case CarKm | PublicTransport | Flights => Transport
    case Electricity | Gas | AirConditioning => Energy
    case Meat | Dairy | FoodWaste => Food
    case Shopping | Waste | Recycling => Consumption
  }

  /** The fields of a category, in the key order of the form object. */
  function FieldsOf(c: Category): (fs: seq<Field>)
    ensures |fs| == 3
    ensures forall i :: 0 <= i < |fs| ==> CategoryOf(fs[i]) == c
    ensures forall f :: CategoryOf(f) == c ==> f in fs
  {
    match c
    case Transport => [CarKm, PublicTransport, Flights]
    case Energy => [Electricity, Gas, AirConditioning]
    case Food => [Meat, Dairy, FoodWaste]
    case Consumption => [Shopping, Waste, Recycling]
  }

  /** Emission per unit of each field; recycling is the only mitigating (negative) factor. */
  function Factor(f: Field): (r: real)
    ensures r < 0.0 <==> f == Recycling
  {
    match f
    case CarKm => 0.21
    case PublicTransport => 2.5
    case Flights => 500.0
    case Electricity => 0.2
    case Gas => 15.0
    case AirConditioning => 0.4
    case Meat => 6.0
    case Dairy => 1.5
    case FoodWaste => 2.5
    case Shopping => 10.0
    case Waste => 5.0
    case Recycling => -2.0
  }

  /** A form value: a slider number, or `undefined` (what an empty slider array leaves behind). */
  datatype FieldValue = Num(n: int) | Undefined

  /** `value || 0`: an undefined (or zero) value counts as 0. */
  function OrZero(v: FieldValue): int {
    match v
    case Num(n) => n
    case Undefined => 0
  }

  /** `value > limit` as JavaScript evaluates it: `undefined > limit` is false. */
  predicate Exceeds(v: FieldValue, limit: int) {
    v.Num? && v.n > limit
  }

  /** `value < limit` as JavaScript evaluates it: `undefined < limit` is false. */
  predicate FallsBelow(v: FieldValue, limit: int) {
    v.Num? && v.n < limit
  }

  // ---------------------------------------------------------------------------------------
  // Form state
  // ---------------------------------------------------------------------------------------

  /** `formData`: category key to an object from field key to value. */
  type Form = map<Category, map<Field, FieldValue>>

  /** The keys of a category's object. */
  function FieldSet(c: Category): (s: set<Field>)
    ensures forall f :: f in s <==> CategoryOf(f) == c
  {
    match c
    case Transport => {CarKm, PublicTransport, Flights}
    case Energy => {Electricity, Gas, AirConditioning}
    case Food => {Meat, Dairy, FoodWaste}
    case Consumption => {Shopping, Waste, Recycling}
  }

  /** The shape the form always has: the four categories, each holding exactly its three fields. */
  ghost predicate WellShaped(form: Form) {
    && Transport in form && form[Transport].Keys == FieldSet(Transport)
    && Energy in form && form[Energy].Keys == FieldSet(Energy)
    && Food in form && form[Food].Keys == FieldSet(Food)
    && Consumption in form && form[Consumption].Keys == FieldSet(Consumption)
  }

  lemma ShapeOf(form: Form, c: Category)
    requires WellShaped(form)
    ensures c in form && form[c].Keys == FieldSet(c)
  {
  }

  /** In a well-shaped form every field of a category is stored under it. */
  lemma StoredValue(form: Form, c: Category, f: Field)
    requires c in form && form[c].Keys == FieldSet(c) && CategoryOf(f) == c
    ensures f in form[c] && form[c][f] == ValueOf(form, f)
  {
  }

  /** `formData[category][field]`: the raw value (before `|| 0`), `undefined` when absent. */
  function ValueOf(form: Form, f: Field): FieldValue {
    var c := CategoryOf(f);
    if c in form && f in form[c] then form[c][f] else Undefined
  }

  /** The form as the page first shows it. */
  const DefaultForm: Form := map[
    Transport := map[CarKm := Num(0), PublicTransport := Num(0), Flights := Num(0)],
    Energy := map[Electricity := Num(100), Gas := Num(1), AirConditioning := Num(0)],
    Food := map[Meat := Num(3), Dairy := Num(2), FoodWaste := Num(2)],
    Consumption := map[Shopping := Num(2), Waste := Num(1), Recycling := Num(3)]
  ]

  lemma DefaultFormWellShaped()
    ensures WellShaped(DefaultForm)
  {
  }

  /** What a slider hands over: usually a one-element array, sometimes a bare number. */
  datatype SliderValue = Scalar(n: int) | Items(items: seq<int>)

  /** `Array.isArray(value) ? value[0] : value`; `[][0]` is `undefined`. */
  function Unwrap(v: SliderValue): (r: FieldValue)
    ensures r == Undefined <==> v.Items? && v.items == []
    ensures v.Scalar? ==> r == Num(v.n)
    ensures v.Items? && v.items != [] ==> r == Num(v.items[0])
  {
    match v
    case Scalar(n) => Num(n)
    case Items(items) => if items == [] then Undefined else Num(items[0])
  }

  /** `updateValue(category, field, value)`: set `formData[category][field]` and nothing else. */
  function UpdateValue(form: Form, category: Category, field: Field, value: SliderValue): (r: Form)
    ensures r.Keys == form.Keys + {category}
    ensures category in r && field in r[category]
    ensures forall c :: c in form && c != category ==> r[c] == form[c]
    ensures category in form ==> r[category].Keys == form[category].Keys + {field}
    ensures r[category][field] == Unwrap(value)
    ensures forall f :: category in form && f in form[category] && f != field ==>
              r[category][f] == form[category][f]
    ensures value.Scalar? ==> r[category][field] == Num(value.n)
    ensures value.Items? && value.items != [] ==> r[category][field] == Num(value.items[0])
  {
    var inner := if category in form then form[category] else map[];
    form[category := inner[field := Unwrap(value)]]
  }

  /** The sliders only ever address a field of the category they sit in, which keeps the shape. */
  lemma UpdateValueKeepsShape(form: Form, category: Category, field: Field, value: SliderValue)
    requires WellShaped(form) && CategoryOf(field) == category
    ensures WellShaped(UpdateValue(form, category, field, value))
    ensures ValueOf(UpdateValue(form, category, field, value), field) == Unwrap(value)
    ensures forall f :: f != field ==> ValueOf(UpdateValue(form, category, field, value), f) == ValueOf(form, f)
  {
    var r := UpdateValue(form, category, field, value);
    assert r[category].Keys == FieldSet(category);
    forall f | f != field
      ensures ValueOf(r, f) == ValueOf(form, f)
    {
      UpdateValueReadBack(form, category, field, value, f);
    }
  }

  /** Reading back after an update: the updated field holds the new value, every other field its old one. */
  lemma UpdateValueReadBack(form: Form, category: Category, field: Field, value: SliderValue, f: Field)
    requires CategoryOf(field) == category
    ensures ValueOf(UpdateValue(form, category, field, value), f) == if f == field then Unwrap(value) else ValueOf(form, f)
  {
  }

  // ---------------------------------------------------------------------------------------
  // Category sums and the total
  // ---------------------------------------------------------------------------------------

  /** One field's share: `(value || 0) * factor`. */
  function Contribution(v: FieldValue, f: Field): real {
    (OrZero(v) as real) * Factor(f)
  }

  /** Σ contribution over the first `n` fields of category `c`, accumulated as the inner loop does. */
  function PartialCategory(form: Form, c: Category, n: nat): real
    requires n <= |FieldsOf(c)|
  {
    if n == 0 then 0.0
    else PartialCategory(form, c, n - 1) + Contribution(ValueOf(form, FieldsOf(c)[n - 1]), FieldsOf(c)[n - 1])
  }

  /** A category's sum before it is floored at zero. */
  function RawCategory(form: Form, c: Category): real {
    PartialCategory(form, c, |FieldsOf(c)|)
  }

  /** Σ of the unfloored sums of the first `n` categories, accumulated as the outer loop does. */
  function PartialTotal(form: Form, n: nat): real
    requires n <= |CategoryOrder|
  {
    if n == 0 then 0.0 else PartialTotal(form, n - 1) + RawCategory(form, CategoryOrder[n - 1])
  }

  /** The total before it is floored at zero: every category's unfloored sum added up. */
  function RawTotal(form: Form): real {
    PartialTotal(form, |CategoryOrder|)
  }

  /** `Math.max(0, x)`. */
  function Max0(x: real): (r: real)
    ensures 0.0 <= r && x <= r
    ensures r == x || r == 0.0
  {
    if x < 0.0 then 0.0 else x
  }

  /** The number a field contributes to: its value with `|| 0` applied. */
  function Amount(form: Form, f: Field): real {
    OrZero(ValueOf(form, f)) as real
  }

  /** Each category's raw sum, written out with the factor table's constants. */
  lemma RawCategoryExplicit(form: Form)
    ensures RawCategory(form, Transport)
         == Amount(form, CarKm) * 0.21 + Amount(form, PublicTransport) * 2.5 + Amount(form, Flights) * 500.0
    ensures RawCategory(form, Energy)
         == Amount(form, Electricity) * 0.2 + Amount(form, Gas) * 15.0 + Amount(form, AirConditioning) * 0.4
    ensures RawCategory(form, Food)
         == Amount(form, Meat) * 6.0 + Amount(form, Dairy) * 1.5 + Amount(form, FoodWaste) * 2.5
    ensures RawCategory(form, Consumption)
         == Amount(form, Shopping) * 10.0 + Amount(form, Waste) * 5.0 - Amount(form, Recycling) * 2.0
  {
    CategoryOfThree(form, Transport);
    CategoryOfThree(form, Energy);
    CategoryOfThree(form, Food);
    CategoryOfThree(form, Consumption);
  }

  /** A category's sum is the contributions of its three fields, unrolled. */
  lemma CategoryOfThree(form: Form, c: Category)
    ensures var fs := FieldsOf(c);
      RawCategory(form, c)
        == Contribution(ValueOf(form, fs[0]), fs[0])
         + Contribution(ValueOf(form, fs[1]), fs[1])
         + Contribution(ValueOf(form, fs[2]), fs[2])
  {
    var fs := FieldsOf(c);
    assert PartialCategory(form, c, 1) == Contribution(ValueOf(form, fs[0]), fs[0]);
    assert PartialCategory(form, c, 2) == PartialCategory(form, c, 1) + Contribution(ValueOf(form, fs[1]), fs[1]);
  }

  /** The unfloored total is the sum of the four unfloored category sums. */
  lemma RawTotalIsSumOfCategories(form: Form)
    ensures RawTotal(form)
         == RawCategory(form, Transport) + RawCategory(form, Energy)
          + RawCategory(form, Food) + RawCategory(form, Consumption)
  {
    assert PartialTotal(form, 1) == RawCategory(form, Transport);
    assert PartialTotal(form, 2) == PartialTotal(form, 1) + RawCategory(form, Energy);
    assert PartialTotal(form, 3) == PartialTotal(form, 2) + RawCategory(form, Food);
  }

  /** The figures a calculation reports: the floored categories and the separately floored total. */
  function ReportedCategories(form: Form): (b: Breakdown)
    ensures forall c :: 0.0 <= b.Get(c)
    ensures forall c :: 0.0 <= RawCategory(form, c) ==> b.Get(c) == RawCategory(form, c)
  {
    Breakdown(
      Max0(RawCategory(form, Transport)), Max0(RawCategory(form, Energy)),
      Max0(RawCategory(form, Food)), Max0(RawCategory(form, Consumption)))
  }

  /**
   * The total is floored once, over the unfloored sums: it never exceeds the sum of the
   * reported (floored) categories, and equals it when no category sum went negative.
   */
  lemma TotalVersusReportedCategories(form: Form)
    ensures Max0(RawTotal(form)) <= ReportedCategories(form).Sum()
    ensures (forall c :: 0.0 <= RawCategory(form, c)) ==>
              Max0(RawTotal(form)) == ReportedCategories(form).Sum()
  {
    RawTotalIsSumOfCategories(form);
  }

  /** No input is negative. */
  ghost predicate NonNegativeInputs(form: Form) {
    forall f :: 0 <= OrZero(ValueOf(form, f))
  }

  /** With non-negative inputs only consumption (through recycling's -2) can sum below zero. */
  lemma OnlyConsumptionCanGoNegative(form: Form)
    requires NonNegativeInputs(form)
    ensures 0.0 <= RawCategory(form, Transport)
    ensures 0.0 <= RawCategory(form, Energy)
    ensures 0.0 <= RawCategory(form, Food)
    ensures RawCategory(form, Consumption) >= -2.0 * Amount(form, Recycling)
  {
    RawCategoryExplicit(form);
    assert 0.0 <= Amount(form, CarKm) && 0.0 <= Amount(form, PublicTransport) && 0.0 <= Amount(form, Flights);
    assert 0.0 <= Amount(form, Electricity) && 0.0 <= Amount(form, Gas) && 0.0 <= Amount(form, AirConditioning);
    assert 0.0 <= Amount(form, Meat) && 0.0 <= Amount(form, Dairy) && 0.0 <= Amount(form, FoodWaste);
    assert 0.0 <= Amount(form, Shopping) && 0.0 <= Amount(form, Waste);
  }

  // ---------------------------------------------------------------------------------------
  // Bands
  // ---------------------------------------------------------------------------------------

  datatype Level = Excelente | Bom | Moderado | Alto

  /** `getFootprintLevel`: half-open bands, lower bound inclusive. */
  function FootprintLevel(value: real): (l: Level)
    ensures l == Excelente <==> value < 50.0
    ensures l == Bom <==> 50.0 <= value < 100.0
    ensures l == Moderado <==> 100.0 <= value < 200.0
    ensures l == Alto <==> 200.0 <= value
  {
    if value < 50.0 then Excelente
    else if value < 100.0 then Bom
    else if value < 200.0 then Moderado
    else Alto
  }

  function Rank(l: Level): nat {
    match l
    case Excelente => 0
    case Bom => 1
    case Moderado => 2
    case Alto => 3
  }

  /** A larger total never lands in a better band. */
  lemma LevelMonotone(a: real, b: real)
    requires a <= b
    ensures Rank(FootprintLevel(a)) <= Rank(FootprintLevel(b))
  {
  }

  // ---------------------------------------------------------------------------------------
  // Recommendations
  // ---------------------------------------------------------------------------------------

  /** The messages the recommendation list is made of. */
  datatype Advice =
    | HighFootprint | ModerateFootprint
    | UseTransit | SaveElectricity | EatLessMeat | WasteLessFood | RecycleMore
    | Congratulate | RoomToImprove

  /** The exact text pushed for each message. */
  function Text(a: Advice): string {
    match a
    case HighFootprint => "Sua pegada geral é alta. Foque nas categorias com maior impacto para obter melhores resultados."
    case ModerateFootprint => "Sua pegada é moderada. Pequenas mudanças nos seus hábitos diários podem fazer uma grande diferença."
    case UseTransit => "No Transporte, considere usar mais transporte público ou bicicleta."
    case SaveElectricity => "Em Energia, tente reduzir o consumo desligando aparelhos não utilizados."
    case EatLessMeat => "Na Alimentação, reduzir o consumo de carne vermelha é uma das ações mais eficazes."
    case WasteLessFood => "Planejar suas compras e refeições ajuda a evitar o desperdício de alimentos."
    case RecycleMore => "No Consumo, aumentar seus esforços de reciclagem é fundamental."
    case Congratulate => "Parabéns! Seus hábitos são muito sustentáveis. Continue assim!"
    case RoomToImprove => "Seus hábitos parecem equilibrados, mas sempre há espaço para melhorar. Explore pequenas mudanças em cada categoria."
  }

  /** One guarded `push`: the message when its condition holds, nothing otherwise. */
  function Check(b: bool, a: Advice): seq<Advice> {
    if b then [a] else []
  }

  /** The band message: only the two upper bands have one. */
  function BandMessages(l: Level): seq<Advice> {
    match l
    case Alto => [HighFootprint]
    case Moderado => [ModerateFootprint]
    case _ => []
  }

  /** The five field checks, each a strict threshold on a raw form value, in the order they run. */
  function Advisories(form: Form): (adv: seq<Advice>)
    ensures |adv| <= 5
  {
    Check(Exceeds(ValueOf(form, CarKm), 100), UseTransit)
    + Check(Exceeds(ValueOf(form, Electricity), 200), SaveElectricity)
    + Check(Exceeds(ValueOf(form, Meat), 5), EatLessMeat)
    + Check(Exceeds(ValueOf(form, FoodWaste), 3), WasteLessFood)
    + Check(FallsBelow(ValueOf(form, Recycling), 3), RecycleMore)
  }

  /**
   * The recommendation list: the band message (if any), then the advisories in their fixed
   * order; when that is empty, a single closing message chosen by band.
   */
  function Recommendations(form: Form, total: real): (recs: seq<Advice>)
    ensures 1 <= |recs| <= 6
  {
    var l := FootprintLevel(total);
    var recs := BandMessages(l) + Advisories(form);
    if recs != [] then recs
    else if l == Excelente || l == Bom then [Congratulate]
    else [RoomToImprove]
  }

  /** `generateRecommendations`: pushes the messages one check at a time. */
  method GenerateRecommendations(data: Form, totalFootprint: real) returns (recs: seq<Advice>)
    requires WellShaped(data)
    ensures recs == Recommendations(data, totalFootprint)
  {
    recs := [];
    var levelInfo := FootprintLevel(totalFootprint);

    if levelInfo == Alto {
      recs := recs + [HighFootprint];
    } else if levelInfo == Moderado {
      recs := recs + [ModerateFootprint];
    }

    ghost var band := recs;
    assert band == BandMessages(levelInfo);
    StoredValue(data, Transport, CarKm);
    StoredValue(data, Energy, Electricity);
    StoredValue(data, Food, Meat);
    StoredValue(data, Food, FoodWaste);
    StoredValue(data, Consumption, Recycling);
    var carKm, electricity, meat, foodWaste, recycling :=
      data[Transport][CarKm], data[Energy][Electricity], data[Food][Meat], data[Food][FoodWaste], data[Consumption][Recycling];
    if Exceeds(carKm, 100) { recs := recs + [UseTransit]; }
    ghost var s1 := recs;
    assert s1 == band + Check(Exceeds(carKm, 100), UseTransit);
    if Exceeds(electricity, 200) { recs := recs + [SaveElectricity]; }
    ghost var s2 := recs;
    assert s2 == s1 + Check(Exceeds(electricity, 200), SaveElectricity);
    if Exceeds(meat, 5) { recs := recs + [EatLessMeat]; }
    ghost var s3 := recs;
    assert s3 == s2 + Check(Exceeds(meat, 5), EatLessMeat);
    if Exceeds(foodWaste, 3) { recs := recs + [WasteLessFood]; }
    ghost var s4 := recs;
    assert s4 == s3 + Check(Exceeds(foodWaste, 3), WasteLessFood);
    if FallsBelow(recycling, 3) { recs := recs + [RecycleMore]; }
    assert recs == s4 + Check(FallsBelow(recycling, 3), RecycleMore);
    Regroup(band, Check(Exceeds(carKm, 100), UseTransit), Check(Exceeds(electricity, 200), SaveElectricity),
      Check(Exceeds(meat, 5), EatLessMeat), Check(Exceeds(foodWaste, 3), WasteLessFood),
      Check(FallsBelow(recycling, 3), RecycleMore));
    assert recs == BandMessages(levelInfo) + Advisories(data);

    if |recs| == 0 && (levelInfo == Excelente || levelInfo == Bom) {
      recs := recs + [Congratulate];
    } else if |recs| == 0 {
      recs := recs + [RoomToImprove];
    }
  }

  /** Pushing onto the band message one check at a time builds the band message followed by the advisories. */
  lemma Regroup(b: seq<Advice>, e1: seq<Advice>, e2: seq<Advice>, e3: seq<Advice>, e4: seq<Advice>, e5: seq<Advice>)
    ensures b + e1 + e2 + e3 + e4 + e5 == b + (e1 + e2 + e3 + e4 + e5)
  {
  }

  /** The list is never empty and holds at most one band message and five advisories. */
  lemma RecommendationsLength(form: Form, total: real)
    ensures 1 <= |Recommendations(form, total)| <= 6
  {
  }

  /** The five field thresholds, read straight off the form. */
  predicate ThresholdMet(a: Advice, form: Form) {
    match a
    case UseTransit => Exceeds(ValueOf(form, CarKm), 100)
    case SaveElectricity => Exceeds(ValueOf(form, Electricity), 200)
    case EatLessMeat => Exceeds(ValueOf(form, Meat), 5)
    case WasteLessFood => Exceeds(ValueOf(form, FoodWaste), 3)
    case RecycleMore => FallsBelow(ValueOf(form, Recycling), 3)
    case _ => false
  }

  /** No field threshold is met. */
  predicate NoThresholdMet(form: Form) {
    && !Exceeds(ValueOf(form, CarKm), 100)
    && !Exceeds(ValueOf(form, Electricity), 200)
    && !Exceeds(ValueOf(form, Meat), 5)
    && !Exceeds(ValueOf(form, FoodWaste), 3)
    && !FallsBelow(ValueOf(form, Recycling), 3)
  }

  /** An advisory is among the advisories exactly when its threshold is met. */
  lemma InAdvisories(form: Form, a: Advice)
    ensures a in Advisories(form) <==> ThresholdMet(a, form)
    ensures Advisories(form) == [] <==> NoThresholdMet(form)
  {
  }

  /** When each message is part of the list. */
  predicate Warranted(a: Advice, form: Form, total: real) {
    match a
    case HighFootprint => 200.0 <= total
    case ModerateFootprint => 100.0 <= total < 200.0
    case Congratulate => total < 100.0 && NoThresholdMet(form)
    case RoomToImprove => false
    case _ => ThresholdMet(a, form)
  }

  /**
   * A message is in the list exactly when it is warranted: the band message for the two upper
   * bands, each advisory when its strict threshold is met, the congratulation for the two lower
   * bands when nothing else was pushed, and the "balanced" message never.
   */
  lemma RecommendedIffWarranted(form: Form, total: real, a: Advice)
    ensures a in Recommendations(form, total) <==> Warranted(a, form, total)
  {
    InAdvisories(form, a);
  }

  /** The congratulation only ever stands alone. */
  lemma CongratulationStandsAlone(form: Form, total: real)
    ensures Congratulate in Recommendations(form, total) ==> Recommendations(form, total) == [Congratulate]
  {
    InAdvisories(form, Congratulate);
  }

  /** The band message comes first, exactly for the two upper bands. */
  lemma BandMessageFirst(form: Form, total: real)
    ensures FootprintLevel(total) == Alto <==> Recommendations(form, total)[0] == HighFootprint
    ensures FootprintLevel(total) == Moderado <==> Recommendations(form, total)[0] == ModerateFootprint
  {
    InAdvisories(form, Recommendations(form, total)[0]);
  }

  // ---------------------------------------------------------------------------------------
  // The calculation
  // ---------------------------------------------------------------------------------------

  /** The object built for saving: exactly these three parts. */
  datatype Submission = Submission(totalFootprint: real, categories: Breakdown, recommendations: seq<Advice>)

  /**
   * The inner `forEach` of `calculateFootprint`: one category's fields, each value (`|| 0`)
   * times its factor, accumulated into `categoryTotal`.
   */
  method SumCategory(formData: Form, categoryKey: Category) returns (categoryTotal: real)
    requires categoryKey in formData && formData[categoryKey].Keys == FieldSet(categoryKey)
    ensures categoryTotal == RawCategory(formData, categoryKey)
  {
    var fields := FieldsOf(categoryKey);
    categoryTotal := 0.0;
    var j := 0;
    while j < |fields|
      invariant 0 <= j <= |fields|
      invariant categoryTotal == PartialCategory(formData, categoryKey, j)
    {
      var field := fields[j];
      StoredValue(formData, categoryKey, field);
      var value := formData[categoryKey][field];
      categoryTotal := categoryTotal + Contribution(value, field);
      assert PartialCategory(formData, categoryKey, j + 1)
          == PartialCategory(formData, categoryKey, j) + Contribution(ValueOf(formData, field), field);
      j := j + 1;
    }
  }

  /** Where a category stands in the key order. */
  function Position(c: Category): (k: nat)
    ensures k < |CategoryOrder| && CategoryOrder[k] == c
  {
    match c
    case Transport => 0
    case Energy => 1
    case Food => 2
    case Consumption => 3
  }

  /**
   * The outer `forEach` of `calculateFootprint`: each category's sum is floored into
   * `categoryResults` and added, unfloored, to the running total.
   */
  method SumCategories(formData: Form) returns (categoryResults: map<Category, real>, total: real)
    requires WellShaped(formData)
    ensures total == RawTotal(formData)
    ensures forall c :: c in categoryResults && categoryResults[c] == Max0(RawCategory(formData, c))
  {
    categoryResults := map[];
    total := 0.0;
    var i := 0;
    while i < |CategoryOrder|
      invariant 0 <= i <= |CategoryOrder|
      invariant total == PartialTotal(formData, i)
      invariant forall c :: Position(c) < i ==> c in categoryResults
      invariant forall c :: c in categoryResults ==> categoryResults[c] == Max0(RawCategory(formData, c))
    {
      var categoryKey := CategoryOrder[i];
      ShapeOf(formData, categoryKey);
      var categoryTotal := SumCategory(formData, categoryKey);
      categoryResults := categoryResults[categoryKey := Max0(categoryTotal)];
      total := total + categoryTotal;
      i := i + 1;
    }
  }

  /**
   * `calculateFootprint` up to the save: the category sums, the total floored last, and the
   * recommendations for that total.
   */
  method CalculateFootprint(formData: Form) returns (s: Submission)
    requires WellShaped(formData)
    ensures s.totalFootprint == Max0(RawTotal(formData))
    ensures s.categories == ReportedCategories(formData)
    ensures s.recommendations == Recommendations(formData, s.totalFootprint)
  {
    var categoryResults, total := SumCategories(formData);
    var totalFootprint := Max0(total);
    var generatedRecs := GenerateRecommendations(formData, totalFootprint);
    var categories := Breakdown(
      categoryResults[Transport], categoryResults[Energy],
      categoryResults[Food], categoryResults[Consumption]);
    s := Submission(totalFootprint, categories, generatedRecs);
  }

  // ---------------------------------------------------------------------------------------
  // Worked examples
  // ---------------------------------------------------------------------------------------

  /**
   * The form as first shown: transport 0, energy 35, food 26, consumption 19, total 80, band
   * Bom, and the single congratulation as the whole list.
   */
  lemma DefaultFormResult()
    ensures WellShaped(DefaultForm)
    ensures ReportedCategories(DefaultForm) == Breakdown(0.0, 35.0, 26.0, 19.0)
    ensures Max0(RawTotal(DefaultForm)) == 80.0
    ensures FootprintLevel(80.0) == Bom
    ensures Recommendations(DefaultForm, 80.0) == [Congratulate]
  {
    DefaultValues();
    DefaultSlidersExample(DefaultForm);
  }

  /** The slider positions of the default form. */
  lemma DefaultValues()
    ensures WellShaped(DefaultForm)
    ensures Sliders(DefaultForm, 0, 0, 0, 100, 1, 0, 3, 2, 2, 2, 1, 3)
  {
    DefaultFormWellShaped();
  }

  /** Any form holding the default slider values totals 80 and earns the congratulation alone. */
  lemma DefaultSlidersExample(form: Form)
    requires Sliders(form, 0, 0, 0, 100, 1, 0, 3, 2, 2, 2, 1, 3)
    ensures ReportedCategories(form) == Breakdown(0.0, 35.0, 26.0, 19.0)
    ensures Max0(RawTotal(form)) == 80.0
    ensures Recommendations(form, 80.0) == [Congratulate]
  {
    assert RawCategory(form, Transport) == 0.0 && RawCategory(form, Energy) == 35.0 by {
      RawCategoryExplicit(form);
    }
    assert RawCategory(form, Food) == 26.0 && RawCategory(form, Consumption) == 19.0 by {
      RawCategoryExplicit(form);
    }
    RawTotalIsSumOfCategories(form);
    assert Advisories(form) == [];
  }

  /** The form holds these twelve slider values. */
  predicate Sliders(
    form: Form,
    carKm: int, publicTransport: int, flights: int,
    electricity: int, gas: int, airConditioning: int,
    meat: int, dairy: int, foodWaste: int,
    shopping: int, waste: int, recycling: int)
  {
    && ValueOf(form, CarKm) == Num(carKm) && ValueOf(form, PublicTransport) == Num(publicTransport)
    && ValueOf(form, Flights) == Num(flights)
    && ValueOf(form, Electricity) == Num(electricity) && ValueOf(form, Gas) == Num(gas)
    && ValueOf(form, AirConditioning) == Num(airConditioning)
    && ValueOf(form, Meat) == Num(meat) && ValueOf(form, Dairy) == Num(dairy)
    && ValueOf(form, FoodWaste) == Num(foodWaste)
    && ValueOf(form, Shopping) == Num(shopping) && ValueOf(form, Waste) == Num(waste)
    && ValueOf(form, Recycling) == Num(recycling)
  }

  /**
   * The defaults with 100 km by car: 21 + 35 + 26 + 19 = 101, band Moderado, and only the band
   * message, since 100 km is not above the transport threshold.
   */
  lemma HundredKmExample(form: Form)
    requires Sliders(form, 100, 0, 0, 100, 1, 0, 3, 2, 2, 2, 1, 3)
    ensures ReportedCategories(form) == Breakdown(21.0, 35.0, 26.0, 19.0)
    ensures Max0(RawTotal(form)) == 101.0
    ensures FootprintLevel(101.0) == Moderado
    ensures Recommendations(form, 101.0) == [ModerateFootprint]
  {
    assert RawCategory(form, Transport) == 21.0 && RawCategory(form, Energy) == 35.0 by {
      RawCategoryExplicit(form);
    }
    assert RawCategory(form, Food) == 26.0 && RawCategory(form, Consumption) == 19.0 by {
      RawCategoryExplicit(form);
    }
    RawTotalIsSumOfCategories(form);
    assert Advisories(form) == [];
  }

  /**
   * The defaults with 150 km by car and 6 meat meals: total 129.5, band Moderado, and the
   * band message, then the transport advisory, then the meat advisory.
   */
  lemma AdvisoryOrderExample(form: Form)
    requires Sliders(form, 150, 0, 0, 100, 1, 0, 6, 2, 2, 2, 1, 3)
    ensures Max0(RawTotal(form)) == 129.5
    ensures Recommendations(form, 129.5) == [ModerateFootprint, UseTransit, EatLessMeat]
  {
    assert RawTotal(form) == 129.5 by {
      RawCategoryExplicit(form);
      RawTotalIsSumOfCategories(form);
    }
    assert Advisories(form) == [UseTransit, EatLessMeat];
  }

  /**
   * Full recycling with no shopping and no waste (recycling 5, the slider's top) drives
   * consumption to -10: it is reported as 0, yet the credit still lowers the total to 51,
   * below the 61 the reported categories add to.
   */
  lemma RecyclingCreditExample(form: Form)
    requires Sliders(form, 0, 0, 0, 100, 1, 0, 3, 2, 2, 0, 0, 5)
    ensures RawCategory(form, Consumption) == -10.0
    ensures ReportedCategories(form) == Breakdown(0.0, 35.0, 26.0, 0.0)
    ensures Max0(RawTotal(form)) == 51.0
    ensures ReportedCategories(form).Sum() == 61.0
  {
    assert RawCategory(form, Transport) == 0.0 && RawCategory(form, Energy) == 35.0 by {
      RawCategoryExplicit(form);
    }
    assert RawCategory(form, Food) == 26.0 && RawCategory(form, Consumption) == -10.0 by {
      RawCategoryExplicit(form);
    }
    RawTotalIsSumOfCategories(form);
  }

  /** Moving the car slider of the default form to 100 gives the form of the 101 example. */
  lemma HundredKmFromDefaults()
    ensures Sliders(UpdateValue(DefaultForm, Transport, CarKm, Items([100])), 100, 0, 0, 100, 1, 0, 3, 2, 2, 2, 1, 3)
  {
    DefaultValues();
    UpdateValueKeepsShape(DefaultForm, Transport, CarKm, Items([100]));
  }
}
