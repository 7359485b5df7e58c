/**
 * Functions that several scripts define with the same body: the dollar-sign
 * price parser, the keyword classifier over a list of provider categories,
 * the query-size picker, and the Google Places helpers `moneyText` and
 * `mapCategoryFromTypes`.
 */
module CommonRules {
  import opened Wrappers
  import opened Text
  import opened Js
  import opened Rules
  import opened Collections

  /** A provider's price field: absent, text such as `"$$"` or `"2"`, or a JSON number. */
  datatype PriceRaw = NoPrice | PriceText(text: string) | PriceNumber(amount: real)

  /** `!level` is false. */
  predicate PriceTruthy(level: PriceRaw) {
    (level.PriceText? && level.text != "") || (level.PriceNumber? && level.amount != 0.0)
  }

  /**
   * `parsePriceLevel`: falsy gives 0, otherwise the number of `$` signs when
   * there is one, otherwise the value of the field when it is a number.
   */
  function DollarPriceLevel(level: PriceRaw): (r: real)
    ensures !PriceTruthy(level) ==> r == 0.0
    ensures level.PriceText? && '$' in level.text ==> r == CountChar(level.text, '$') as real && r >= 1.0
    ensures level.PriceNumber? ==> r == level.amount
    ensures level.PriceText? && level.text != "" && '$' !in level.text ==> r == ParseNumber(level.text).GetOr(0.0)
  {
    match level
    case NoPrice => 0.0
    case PriceNumber(v) => v
    case PriceText(s) =>
      if s == "" then 0.0
      else if CountChar(s, '$') > 0 then CountChar(s, '$') as real
      else ParseNumber(s).GetOr(0.0)
  }

  /** `level || null` stored in a text column: numbers as JavaScript writes them. */
  function PriceRawText(level: PriceRaw, numberText: real -> string): (r: Option<string>)
    ensures r.Some? <==> PriceTruthy(level)
    ensures level.PriceText? && r.Some? ==> r.value == level.text
  {
    match level
    case PriceText(s) => if s != "" then Some(s) else None
    case PriceNumber(v) => if v != 0.0 then Some(numberText(v)) else None
    case NoPrice => None
  }

/** `INEXPENSIVE` contains `EXPENSIVE`. */
  lemma ExpensiveInInexpensive(u: string)
    ensures Contains(u, "INEXPENSIVE") ==> Contains(u, "EXPENSIVE")
  {
    if Contains(u, "INEXPENSIVE") {
      ContainsIff(u, "INEXPENSIVE");
      var i :| OccursAt(u, "INEXPENSIVE", i);
      assert u[i + 2..i + 11] == u[i..i + 11][2..];
      assert "INEXPENSIVE"[2..] == "EXPENSIVE";
      OccursImpliesContains(u, "EXPENSIVE", i + 2);
    }
  }

  /** `"$".repeat(n)` */
  function Repeat(c: char, n: nat): (r: string)
    ensures |r| == n && forall i :: 0 <= i < n ==> r[i] == c
  {
    if n == 0 then "" else [c] + Repeat(c, n - 1)
  }

  lemma {:induction false} CountRepeat(c: char, n: nat)
    ensures CountChar(Repeat(c, n), c) == n
  {
    if n > 0 {
      assert Repeat(c, n)[1..] == Repeat(c, n - 1);
      CountRepeat(c, n - 1);
    }
  }

  /**
   * `moneyText`: `null` for a non-positive level, otherwise between one and
   * four dollar signs (`repeat` drops the fraction of its count).
   */
  function MoneyText(priceLevel: real): (r: Option<string>)
    ensures r.None? <==> priceLevel <= 0.0
    ensures r.Some? ==> 1 <= |r.value| <= 4 && forall i :: 0 <= i < |r.value| ==> r.value[i] == '$'
  {
    if priceLevel <= 0.0 then None
    else
      var count := if priceLevel >= 4.0 then 4.0 else if priceLevel < 1.0 then 1.0 else priceLevel;
      Some(Repeat('$', count.Floor as nat))
  }

  /** The text `moneyText` writes for a Google price level 1-4 reads back as that level. */
  lemma MoneyTextRoundTrip(level: int)
    requires 1 <= level <= 4
    ensures MoneyText(level as real).Some?
    ensures DollarPriceLevel(PriceText(MoneyText(level as real).value)) == level as real
  {
    var t := MoneyText(level as real).value;
    assert t == Repeat('$', level);
    CountRepeat('$', level);
    assert t[0] == '$';
  }

  /** The tests of the classifier over provider categories, in order. */
  const CafeWords := ["caf", "coffee", "confeitaria", "doces", "bakery", "bolo", "padaria"]
  const NightWords := ["bar", "pub", "brew", "chopp", "balada", "night"]
  const FoodWords := ["restaurant", "restaurante", "food", "churrascaria", "pizza", "sushi", "steak"]
  const NatureWords := ["park", "parque", "pra\U{E7}a", "square"]
  const CultureWords := ["museum", "museu", "teatro", "catedral", "igreja", "monumento", "cultura", "art"]
  const ShoppingWords := ["shopping", "mall", "loja", "store"]

  const ListRules: seq<Rule> := [
    Rule(CafeWords, "cafes"),
    Rule(NightWords, "nightlife"),
    Rule(FoodWords, "restaurants"),
    Rule(NatureWords, "nature"),
    Rule(CultureWords, "culture"),
    Rule(ShoppingWords, "shopping")
  ]

  const ListSeparator := " | "

  function LowerAll(xs: seq<string>): (r: seq<string>)
    ensures |r| == |xs| && forall i :: 0 <= i < |xs| ==> r[i] == Lower(xs[i])
  {
    seq(|xs|, i requires 0 <= i < |xs| => Lower(xs[i]))
  }

  /**
   * `mapCategory(categories)`: the lower-cased categories joined with `" | "`,
   * tested for cafes, nightlife, restaurants, nature, culture and shopping
   * words in that order; `"attractions"` when none matches.
   */
  function MapCategoryList(categories: seq<string>): (r: string)
    ensures r in {"cafes", "nightlife", "restaurants", "nature", "culture", "shopping", "attractions"}
    ensures r == "attractions" <==> forall i :: 0 <= i < |ListRules| ==> !Matches(Join(LowerAll(categories), ListSeparator), ListRules[i])
  {
    FirstMatch(Join(LowerAll(categories), ListSeparator), ListRules).GetOr("attractions")
  }

  /** One lemma per keyword list keeps each character check small. */
  lemma CafeWordsPlain() ensures AllPlain(CafeWords) {}
  lemma NightWordsPlain() ensures AllPlain(NightWords) {}
  lemma FoodWordsPlain() ensures AllPlain(FoodWords) {}
  lemma NatureWordsPlain() ensures AllPlain(NatureWords) {}
  lemma CultureWordsPlain() ensures AllPlain(CultureWords) {}
  lemma ShoppingWordsPlain() ensures AllPlain(ShoppingWords) {}

  lemma ListRulesAvoidSeparator()
    ensures WordsAvoid(ListRules, ListSeparator)
  {
    CafeWordsPlain();
    NightWordsPlain();
    FoodWordsPlain();
    NatureWordsPlain();
    CultureWordsPlain();
    ShoppingWordsPlain();
    assert ListRules[0].words == CafeWords;
    assert NoWordChar(ListSeparator);
    WordsAvoidByRule(ListRules, ListSeparator);
  }

  /**
   * The classifier looks at the categories one by one: two lists with the
   * same elements, in any order and with any repeats, get the same category.
   */
  lemma MapCategoryListSameElements(xs: seq<string>, ys: seq<string>)
    requires forall e :: e in xs <==> e in ys
    ensures MapCategoryList(xs) == MapCategoryList(ys)
  {
    var lx := LowerAll(xs);
    var ly := LowerAll(ys);
    forall e | e in lx ensures e in ly {
      var i :| 0 <= i < |lx| && lx[i] == e;
      assert xs[i] in ys;
      var j :| 0 <= j < |ys| && ys[j] == xs[i];
      assert ly[j] == e;
    }
    forall e | e in ly ensures e in lx {
      var j :| 0 <= j < |ly| && ly[j] == e;
      assert ys[j] in xs;
      var i :| 0 <= i < |xs| && xs[i] == ys[j];
      assert lx[i] == e;
    }
    ListRulesAvoidSeparator();
    FirstMatchJoinSameElements(lx, ly, ListSeparator, ListRules);
  }

  /** A category that contains a cafe word makes the place a cafe, whatever else the list holds. */
  lemma MapCategoryListCafeFirst(categories: seq<string>, i: int, k: int)
    requires 0 <= i < |categories| && 0 <= k < |ListRules[0].words|
    requires Contains(Lower(categories[i]), ListRules[0].words[k])
    ensures MapCategoryList(categories) == "cafes"
  {
    var lx := LowerAll(categories);
    ContainsInJoin(lx, ListSeparator, i, ListRules[0].words[k]);
  }

  const DefaultMaxResults := 150
  const LightMaxResults := 20

  /**
   * `pickLimit(term)`: the smaller result cap for parks, museums and
   * shopping centres (`LBD_MAX_RESULTS_LIGHT`, 20 by default), the larger
   * one (`LBD_MAX_RESULTS`, 150 by default) for everything else.
   */
  function PickLimit(term: string, light: real, default: real): (r: real)
    ensures r == light <==> ContainsAny(Lower(term), ["parque", "park", "museu", "museo", "shopping"]) || light == default
    ensures r == light || r == default
  {
    if ContainsAny(Lower(term), ["parque", "park", "museu", "museo", "shopping"]) then light else default
  }

  /** The tests of `mapCategoryFromTypes`, in order. */
  const NightTypes := ["night_club", "bar"]
  const FoodTypes := ["restaurant", "meal_takeaway", "meal_delivery", "food"]
  const CultureTypes := ["museum", "art_gallery", "theater"]
  const CafeTypes := ["cafe"]
  const MallTypes := ["shopping_mall"]
  const ParkTypes := ["park"]
  const SightTypes := ["tourist_attraction"]

  const TypeRules: seq<Rule> := [
    Rule(NightTypes, "nightlife"),
    Rule(CafeTypes, "cafes"),
    Rule(FoodTypes, "restaurants"),
    Rule(MallTypes, "shopping"),
    Rule(ParkTypes, "nature"),
    Rule(CultureTypes, "culture"),
    Rule(SightTypes, "attractions")
  ]

  /**
   * `mapCategoryFromTypes(types)`: Google place types joined with `"|"` and
   * tested in order; `undefined` when no test matches.
   */
  function MapCategoryFromTypes(types: seq<string>): (r: Option<string>)
    ensures r.None? <==> forall i :: 0 <= i < |TypeRules| ==> !Matches(Join(types, "|"), TypeRules[i])
    ensures r.Some? ==> r.value in {"nightlife", "cafes", "restaurants", "shopping", "nature", "culture", "attractions"}
  {
    FirstMatch(Join(types, "|"), TypeRules)
  }

  /**
   * `normalizeTags(types)` of the Google Places scripts: the label of every
   * rule whose words occur in the `"|"`-joined types, in table order, each
   * once, at most 8.
   */
  function TypeTags(types: seq<string>, rules: seq<Rule>): (r: seq<string>)
    ensures NoDup(r) && |r| <= 8
    ensures forall l :: l in r ==> exists i :: 0 <= i < |rules| && Matches(Join(types, "|"), rules[i]) && rules[i].outcome == l
    ensures r <= Distinct(AllMatches(Join(types, "|"), rules))
    ensures |r| == var d := Distinct(AllMatches(Join(types, "|"), rules)); if |d| <= 8 then |d| else 8
  {
    TakeDistinct(AllMatches(Join(types, "|"), rules), 8)
  }

  lemma NightTypesPlain() ensures AllPlain(NightTypes) {}
  lemma FoodTypesPlain() ensures AllPlain(FoodTypes) {}
  lemma CultureTypesPlain() ensures AllPlain(CultureTypes) {}
  lemma OneWordTypesPlain() ensures AllPlain(CafeTypes) && AllPlain(MallTypes) && AllPlain(ParkTypes) && AllPlain(SightTypes) {}

  lemma TypeRulesAvoidSeparator()
    ensures WordsAvoid(TypeRules, "|")
  {
    NightTypesPlain();
    FoodTypesPlain();
    CultureTypesPlain();
    OneWordTypesPlain();
    assert TypeRules[0].words == NightTypes;
    assert NoWordChar("|");
    WordsAvoidByRule(TypeRules, "|");
  }

  /** The category read from Google types does not depend on their order or repeats. */
  lemma MapCategoryFromTypesSameElements(xs: seq<string>, ys: seq<string>)
    requires forall e :: e in xs <==> e in ys
    ensures MapCategoryFromTypes(xs) == MapCategoryFromTypes(ys)
  {
    TypeRulesAvoidSeparator();
    FirstMatchJoinSameElements(xs, ys, "|", TypeRules);
  }

  /** A bar that also serves food is nightlife: the nightlife test comes first. */
  lemma BarBeatsRestaurant(types: seq<string>)
    requires "bar" in types
    ensures MapCategoryFromTypes(types) == Some("nightlife")
  {
    var i :| 0 <= i < |types| && types[i] == "bar";
    assert OccursAt("bar", "bar", 0);
    OccursImpliesContains("bar", "bar", 0);
    ContainsInJoin(types, "|", i, "bar");
    assert NightTypes[1] == "bar";
    assert Matches(Join(types, "|"), TypeRules[0]);
  }
}
