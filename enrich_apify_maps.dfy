/**
 * `scripts/enrich-apify-maps-extractor.js`: one run of the Apify Google Maps
 * extractor is folded into the stored places. A matching place is merged
 * conservatively (missing fields are filled, scores refreshed); an unmatched
 * one is appended only on request.
 */
module EnrichApifyMaps {
  import opened Wrappers
  import opened Text
  import opened Js
  import opened Collections
  import opened Places
  import opened Rules

  // Command line

  /** The environment variables `parseArgs` reads; `""` where one is unset. */
  datatype Settings = Settings(locationQuery: string, language: string, maxPerSearch: string, minStars: string, categories: string)

  datatype Options = Options(
    locationQuery: string,
    language: string,
    /** `None` stands for NaN. */
    maxPerSearch: Option<real>,
    minStars: string,
    categories: seq<string>,
    addNew: bool
  )

  /** `c` is one of `parts` with its surrounding white space cut. */
  ghost predicate TrimmedPart(c: string, parts: seq<string>) {
    exists i :: 0 <= i < |parts| && c == Trim(parts[i])
  }

  /** Each of `parts.map((s) => s.trim())` is its own trim and a trimmed part. */
  lemma TrimmedPartsClean(parts: seq<string>)
    ensures forall c :: c in seq(|parts|, i requires 0 <= i < |parts| => Trim(parts[i])) ==>
      Trim(c) == c && TrimmedPart(c, parts)
  {
    var r := seq(|parts|, i requires 0 <= i < |parts| => Trim(parts[i]));
    forall c | c in r
      ensures Trim(c) == c && TrimmedPart(c, parts)
    {
      var i :| 0 <= i < |r| && r[i] == c;
      TrimOfTrimmed(c);
    }
  }

  /** `s.split(",").map((s) => s.trim()).filter(Boolean)` */
  function CategoryList(s: string): (r: seq<string>)
    ensures forall c :: c in r ==> c != "" && Trim(c) == c
    ensures forall c :: c in r ==> TrimmedPart(c, Split(s, ','))
  {
    var parts := Split(s, ',');
    TrimmedPartsClean(parts);
    Compact(seq(|parts|, i requires 0 <= i < |parts| => Trim(parts[i])))
  }

  /** The options before the flags are read. */
  function Initial(env: Settings): Options {
    Options(
      Either(env.locationQuery, "Goi\U{E2}nia, GO, Brasil"),
      Either(env.language, "pt-BR"),
      if env.maxPerSearch == "" then Some(120.0) else ParseNumber(env.maxPerSearch),
      env.minStars,
      CategoryList(Either(env.categories, "restaurant,bar,cafe,park,museum,shopping mall")),
      false)
  }

  /** `args[++i]`, `""` standing for `undefined` past the end. */
  function Next(args: seq<string>, i: nat): string {
    if i + 1 < |args| then args[i + 1] else ""
  }

  /** The flags that read the argument after them. */
  predicate ValueFlag(a: string) {
    a == "--location" || a == "--language" || a == "--max" || a == "--min-stars" || a == "--categories"
  }

  /**
   * One turn of `parseArgs`' loop at `args[i]`: the options after it and the
   * index of the next flag; `--add-new` is the one flag without a value.
   */
  function ApplyFlag(args: seq<string>, i: nat, out: Options): (r: (Options, nat))
    requires i < |args|
    ensures r.1 == i + 1 || r.1 == i + 2
    ensures r.1 == i + 2 <==> ValueFlag(args[i])
    ensures args[i] != "--add-new" ==> r.0.addNew == out.addNew
    ensures args[i] == "--add-new" ==> r.0 == out.(addNew := true)
    ensures !ValueFlag(args[i]) && args[i] != "--add-new" ==> r.0 == out
    ensures args[i] == "--location" && Next(args, i) != "" ==> r.0 == out.(locationQuery := Next(args, i))
    ensures args[i] == "--location" && Next(args, i) == "" ==> r.0 == out
    ensures args[i] == "--language" && Next(args, i) != "" ==> r.0 == out.(language := Next(args, i))
    ensures args[i] == "--language" && Next(args, i) == "" ==> r.0 == out
    ensures args[i] == "--max" && NumTruthy(FlagValue(args, i)) ==> r.0 == out.(maxPerSearch := FlagValue(args, i))
    ensures args[i] == "--max" && !NumTruthy(FlagValue(args, i)) ==> r.0 == out
    ensures args[i] == "--min-stars" ==> r.0 == out.(minStars := if i + 1 < |args| then args[i + 1] else out.minStars)
    ensures args[i] == "--categories" ==> r.0 == out.(categories := CategoryList(Next(args, i)))
  {
    var a := args[i];
    if a == "--location" then (out.(locationQuery := Either(Next(args, i), out.locationQuery)), i + 2)
    else if a == "--language" then (out.(language := Either(Next(args, i), out.language)), i + 2)
    else if a == "--max" then (out.(maxPerSearch := OrNum(FlagValue(args, i), out.maxPerSearch)), i + 2)
    else if a == "--min-stars" then (out.(minStars := if i + 1 < |args| then args[i + 1] else out.minStars), i + 2)
    else if a == "--categories" then (out.(categories := CategoryList(Next(args, i))), i + 2)
    else if a == "--add-new" then (out.(addNew := true), i + 1)
    else (out, i + 1)
  }

  /** The loop of `parseArgs` from index `i`. */
  function ScanArgs(args: seq<string>, i: nat, out: Options): Options
    decreases |args| - i
  {
    if i >= |args| then out
    else ScanArgs(args, ApplyFlag(args, i, out).1, ApplyFlag(args, i, out).0)
  }

  /** `parseArgs()` */
  function ParseArgs(args: seq<string>, env: Settings): Options {
    ScanArgs(args, 0, Initial(env))
  }

  /** `parseArgs()` as the script runs it: one pass over the arguments. */
  method ParseArgsLoop(args: seq<string>, env: Settings) returns (out: Options)
    ensures out == ParseArgs(args, env)
  {
    out := Initial(env);
    var i := 0;
    while i < |args|
      invariant ScanArgs(args, i, out) == ScanArgs(args, 0, Initial(env))
      decreases |args| - i
    {
      var step := ApplyFlag(args, i, out);
      out, i := step.0, step.1;
    }
  }

  /** Without flags or settings: Goiânia, Portuguese, 120 places a search, new places not added. */
  lemma NoArgsDefaults()
    ensures var out := ParseArgs([], Settings("", "", "", "", ""));
      out.locationQuery == "Goi\U{E2}nia, GO, Brasil" && out.language == "pt-BR"
      && out.maxPerSearch == Some(120.0) && out.minStars == "" && !out.addNew
  {
  }

  /** `--min-stars` takes its value even when it is empty (`??`, not `||`). */
  lemma MinStarsTakesEmpty(env: Settings)
    ensures ParseArgs(["--min-stars", ""], env).minStars == ""
  {
    var args := ["--min-stars", ""];
    var out := Initial(env);
    assert ApplyFlag(args, 0, out) == (out.(minStars := ""), 2);
    assert ScanArgs(args, 2, out.(minStars := "")) == out.(minStars := "");
  }

  /** Every category filter word is non-empty and has no surrounding white space. */
  predicate CleanCategories(out: Options) {
    forall c :: c in out.categories ==> c != "" && Trim(c) == c
  }

  lemma {:induction false} ScanKeepsClean(args: seq<string>, i: nat, out: Options)
    requires CleanCategories(out)
    ensures CleanCategories(ScanArgs(args, i, out))
    decreases |args| - i
  {
    if i < |args| {
      ScanKeepsClean(args, ApplyFlag(args, i, out).1, ApplyFlag(args, i, out).0);
    }
  }

  /** Whatever the flags and settings, the category filter words are trimmed and non-empty. */
  lemma CategoriesClean(args: seq<string>, env: Settings)
    ensures CleanCategories(ParseArgs(args, env))
  {
    ScanKeepsClean(args, 0, Initial(env));
  }

  lemma {:induction false} ScanKeepsAddNewOff(args: seq<string>, i: nat, out: Options)
    requires !out.addNew && forall j :: i <= j < |args| ==> args[j] != "--add-new"
    ensures !ScanArgs(args, i, out).addNew
    decreases |args| - i
  {
    if i < |args| {
      ScanKeepsAddNewOff(args, ApplyFlag(args, i, out).1, ApplyFlag(args, i, out).0);
    }
  }

  /** New places are added only when `--add-new` is given. */
  lemma AddNewOnlyByFlag(args: seq<string>, env: Settings)
    requires "--add-new" !in args
    ensures !ParseArgs(args, env).addNew
  {
    ScanKeepsAddNewOff(args, 0, Initial(env));
  }

  lemma AddNewFlag(env: Settings)
    ensures ParseArgs(["--add-new"], env).addNew
  {
    var args := ["--add-new"];
    var out := Initial(env);
    assert ApplyFlag(args, 0, out) == (out.(addNew := true), 1);
    assert ScanArgs(args, 1, out.(addNew := true)) == out.(addNew := true);
  }

  // Opening hours

  /** `{ day, hours }` with each value as `String(row?.x || "")`. */
  datatype HourRow = HourRow(day: string, hours: string)

  /** `DAY_PT` */
  const DayNames: map<string, string> := map[
    "Monday" := "Segunda",
    "Tuesday" := "Ter\U{E7}a",
    "Wednesday" := "Quarta",
    "Thursday" := "Quinta",
    "Friday" := "Sexta",
    "Saturday" := "S\U{E1}bado",
    "Sunday" := "Domingo"
  ]

  /** `DAY_PT[day] || day`: English day names in Portuguese, any other name kept. */
  function DayPt(day: string): (r: string)
    ensures day in DayNames ==> r == DayNames[day]
    ensures day !in DayNames ==> r == day
  {
    if day in DayNames then DayNames[day] else day
  }

  /** The rows `normalizeHours` keeps. */
  predicate Kept(row: HourRow) {
    row.day != "" && row.hours != ""
  }

  function HourLine(row: HourRow): string {
    DayPt(row.day) + ": " + row.hours
  }

  /** The lines for a list of rows, defined one row at a time. */
  function HourLines(rows: seq<HourRow>): (r: seq<string>)
    ensures |r| <= |rows|
  {
    if rows == [] then []
    else
      var last := rows[|rows| - 1];
      HourLines(rows[..|rows| - 1]) + (if Kept(last) then [HourLine(last)] else [])
  }

  /** `normalizeHours(openingHours)`: `[]` when it is not an array. */
  function NormalizeHours(openingHours: Option<seq<HourRow>>): (r: seq<string>) {
    if openingHours.None? then [] else HourLines(openingHours.value)
  }

  /** `normalizeHours` as the script runs it: a push loop. */
  method NormalizeHoursLoop(openingHours: Option<seq<HourRow>>) returns (out: seq<string>)
    ensures out == NormalizeHours(openingHours)
  {
    if openingHours.None? {
      return [];
    }
    var rows := openingHours.value;
    out := [];
    var i := 0;
    while i < |rows|
      invariant i <= |rows| && out == HourLines(rows[..i])
    {
      var row := rows[i];
      assert rows[..i + 1][..i] == rows[..i];
      if row.day != "" && row.hours != "" {
        out := out + [DayPt(row.day) + ": " + row.hours];
      }
      i := i + 1;
    }
    assert rows[..|rows|] == rows;
  }

  /** The positions of the rows `normalizeHours` keeps, in row order. */
  function KeptIndices(rows: seq<HourRow>): (r: seq<nat>)
    ensures forall k :: 0 <= k < |r| ==> r[k] < |rows| && Kept(rows[r[k]])
    ensures forall k, l :: 0 <= k < l < |r| ==> r[k] < r[l]
    ensures forall j :: 0 <= j < |rows| && Kept(rows[j]) ==> j in r
    ensures |r| <= |rows|
  {
    if rows == [] then []
    else
      var init := rows[..|rows| - 1];
      var before := KeptIndices(init);
      assert forall j :: 0 <= j < |init| ==> rows[j] == init[j];
      before + (if Kept(rows[|rows| - 1]) then [|rows| - 1] else [])
  }

  /**
   * One line per kept row, in row order: the `k`-th line is the line of the
   * `k`-th row with a day and hours.
   */
  lemma {:induction false} HourLinesFromKeptRows(rows: seq<HourRow>)
    ensures |HourLines(rows)| == |KeptIndices(rows)|
    ensures forall k :: 0 <= k < |HourLines(rows)| ==> HourLines(rows)[k] == HourLine(rows[KeptIndices(rows)[k]])
    decreases |rows|
  {
    if rows != [] {
      var init := rows[..|rows| - 1];
      var last := rows[|rows| - 1];
      HourLinesFromKeptRows(init);
      var before := HourLines(init);
      var r := HourLines(rows);
      var ks := KeptIndices(rows);
      assert r == before + (if Kept(last) then [HourLine(last)] else []);
      assert ks == KeptIndices(init) + (if Kept(last) then [|rows| - 1] else []);
      forall k | 0 <= k < |r|
        ensures r[k] == HourLine(rows[ks[k]])
      {
        if k < |before| {
          assert r[k] == before[k] && ks[k] == KeptIndices(init)[k];
          assert rows[ks[k]] == init[ks[k]];
        } else {
          assert r[k] == HourLine(last) && ks[k] == |rows| - 1;
        }
      }
    }
  }

  /** Rows that all have a day and hours keep one line each. */
  lemma {:induction false} AllKeptKeepAll(rows: seq<HourRow>)
    requires forall j :: 0 <= j < |rows| ==> Kept(rows[j])
    ensures |HourLines(rows)| == |rows|
    decreases |rows|
  {
    if rows != [] {
      var init := rows[..|rows| - 1];
      assert forall j :: 0 <= j < |init| ==> init[j] == rows[j];
      AllKeptKeepAll(init);
    }
  }

  // Category and tags

  /** The tests of `mapCategory`, in order. */
  const CategoryRules: seq<Rule> := [
    Rule(["bar", "pub", "night"], "nightlife"),
    Rule(["cafe", "caf\U{E9}", "coffee", "padaria"], "cafes"),
    Rule(["restaurant", "restaurante", "churrasc", "pizz", "sushi", "food"], "restaurants"),
    Rule(["shopping", "mall", "store", "loja"], "shopping"),
    Rule(["park", "parque", "pra\U{E7}a", "praca", "nature"], "nature"),
    Rule(["museum", "museu", "theater", "teatro", "art", "galeria", "cultura"], "culture")
  ]

  /** The tag table of `normalizeTags` in this script. */
  const TagRules: seq<Rule> := [
    Rule(["restaurant", "restaurante", "food"], "Restaurante"),
    Rule(["cafe", "caf\U{E9}", "coffee"], "Caf\U{E9}"),
    Rule(["bar", "pub", "night"], "Bar"),
    Rule(["park", "parque", "pra\U{E7}a", "praca", "nature"], "Parque"),
    Rule(["museum", "museu"], "Museu"),
    Rule(["shopping", "mall"], "Shopping")
  ]

  /** `[categoryName || "", ...(categories || [])].join("|").toLowerCase()` */
  function CategoryText(categoryName: string, categories: Option<seq<string>>): string {
    Lower(Join([categoryName] + categories.GetOr([]), "|"))
  }

  /**
   * `mapCategory(categoryName, categories)`: the label of the first test that
   * matches, `"attractions"` when none does.
   */
  function MapCategory(categoryName: string, categories: Option<seq<string>>): string {
    var m := FirstMatch(CategoryText(categoryName, categories), CategoryRules);
    if m.Some? then m.value else "attractions"
  }

  /** The categories `mapCategory` can return. */
  const ApifyCategories: set<string> := {"nightlife", "cafes", "restaurants", "shopping", "nature", "culture", "attractions"}

  /** The category is one of the seven, and `"attractions"` when no test matches. */
  lemma MapCategoryFacts(categoryName: string, categories: Option<seq<string>>)
    ensures MapCategory(categoryName, categories) in ApifyCategories
    ensures var text := CategoryText(categoryName, categories);
      (forall i :: 0 <= i < |CategoryRules| ==> !Matches(text, CategoryRules[i])) ==> MapCategory(categoryName, categories) == "attractions"
  {
    FirstMatchWithin(CategoryText(categoryName, categories), CategoryRules, ApifyCategories);
  }

  /** The first test in the order nightlife, cafes, restaurants, shopping, nature, culture that matches decides. */
  lemma MapCategoryFirstRule(categoryName: string, categories: Option<seq<string>>, i: int)
    requires 0 <= i < |CategoryRules|
    requires Matches(CategoryText(categoryName, categories), CategoryRules[i])
    requires forall j :: 0 <= j < i ==> !Matches(CategoryText(categoryName, categories), CategoryRules[j])
    ensures MapCategory(categoryName, categories) == CategoryRules[i].outcome
  {
    FirstMatchIsFirst(CategoryText(categoryName, categories), CategoryRules);
  }

  /**
   * `normalizeTags(categoryName, categories)`: the label of every test that
   * matches, in table order, each once; the table is short enough that the
   * cap of 8 never drops one.
   */
  function NormalizeTags(categoryName: string, categories: Option<seq<string>>): seq<string> {
    TakeDistinct(AllMatches(CategoryText(categoryName, categories), TagRules), 8)
  }

  /**
   * The tags hold no repeats and at most eight labels: exactly those of the
   * tests that match.
   */
  lemma NormalizeTagsFacts(categoryName: string, categories: Option<seq<string>>)
    ensures NoDup(NormalizeTags(categoryName, categories)) && |NormalizeTags(categoryName, categories)| <= 8
    ensures var text := CategoryText(categoryName, categories);
      forall l :: l in NormalizeTags(categoryName, categories) <==>
        exists i :: 0 <= i < |TagRules| && Matches(text, TagRules[i]) && TagRules[i].outcome == l
  {
    assert |TagRules| == 6;
    MatchedTags(CategoryText(categoryName, categories), TagRules, 8);
  }

  /** With no more rules than the cap, the capped distinct labels are those of every matching rule. */
  lemma MatchedTags(text: string, rules: seq<Rule>, n: nat)
    requires |rules| <= n
    ensures NoDup(TakeDistinct(AllMatches(text, rules), n)) && |TakeDistinct(AllMatches(text, rules), n)| <= n
    ensures forall l :: l in TakeDistinct(AllMatches(text, rules), n) <==>
      exists i :: 0 <= i < |rules| && Matches(text, rules[i]) && rules[i].outcome == l
  {
    var all := AllMatches(text, rules);
    assert |Distinct(all)| <= |all| <= n;
  }

  // One extractor item

  /**
   * The fields of a dataset item the script reads. `lat`/`lng` are `None`
   * where `Number(...)` is not finite; the scores are `None` where the item
   * has `null` or no value; the strings are `""` where they are falsy.
   */
  datatype ApifyItem = ApifyItem(
    placeId: string,
    title: string,
    address: string,
    lat: Option<real>,
    lng: Option<real>,
    totalScore: Option<real>,
    reviewsCount: Option<real>,
    phoneUnformatted: string,
    phone: string,
    website: string,
    url: string,
    openingHours: Option<seq<HourRow>>,
    categoryName: string,
    categories: Option<seq<string>>,
    menu: string
  )

  /** The `patch` object: the values a merge may take over. */
  datatype Fill = Fill(
    name: string,
    address: string,
    latitude: Option<real>,
    longitude: Option<real>,
    distanceKm: Option<real>,
    rating: real,
    reviewCount: real,
    phone: Option<string>,
    website: Option<string>,
    sourceUrl: Option<string>,
    hours: seq<string>,
    category: string,
    tags: seq<string>,
    stamp: string
  )

  /**
   * `Number(incoming ?? stored ?? 0) || stored || 0`: the incoming score unless it
   * is missing or zero, the stored one otherwise.
   */
  function Score(incoming: Option<real>, stored: real): (r: real)
    ensures incoming.Some? && incoming.value != 0.0 ==> r == incoming.value
    ensures incoming.None? || incoming.value == 0.0 ==> r == stored
  {
    if incoming.Some? && incoming.value != 0.0 then incoming.value else stored
  }

  /** `a || b || null` with a nullable fallback. */
  function OrNull(a: string, b: Option<string>): (r: Option<string>)
    ensures a != "" ==> r == Some(a)
    ensures a == "" ==> r == (if Truthy(b) then b else None)
  {
    Or(NonEmpty(a), Or(b, None))
  }

  /** The `patch` object built for an item and the place it matched, if any. */
  function PatchFor(it: ApifyItem, existing: Option<Place>, env: Env): Fill {
    var ex := if existing.Some? then existing.value else Blank("");
    Fill(
      Either(it.title, Either(ex.name, "Lugar sem nome")),
      Either(it.address, Either(ex.address, "Endere\U{E7}o n\U{E3}o informado")),
      if it.lat.Some? then it.lat else ex.latitude,
      if it.lng.Some? then it.lng else ex.longitude,
      if it.lat.Some? && it.lng.Some? then DistanceIfBoth(env, it.lat, it.lng) else ex.distanceKm,
      Score(it.totalScore, ex.rating),
      Score(it.reviewsCount, ex.reviewCount),
      OrNull(Either(it.phoneUnformatted, it.phone), ex.phone),
      OrNull(it.website, ex.website),
      OrNull(it.url, ex.sourceUrl),
      NormalizeHours(it.openingHours),
      Either(ex.category, MapCategory(it.categoryName, it.categories)),
      if ex.tags != [] then ex.tags else NormalizeTags(it.categoryName, it.categories),
      env.nowIso)
  }

  /** `Array.isArray(hours) && hours.length` */
  predicate HasHours(hours: Option<seq<string>>) {
    hours.Some? && hours.value != []
  }

  /** The conservative merge of a patch into the place it matched. */
  function Merge(ex: Place, f: Fill): Place {
    ex.(
      name := f.name,
      address := if ex.address == "" then f.address else ex.address,
      latitude := if !NumTruthy(ex.latitude) then f.latitude else ex.latitude,
      longitude := if !NumTruthy(ex.longitude) then f.longitude else ex.longitude,
      distanceKm := if !NumTruthy(ex.distanceKm) then f.distanceKm else ex.distanceKm,
      phone := if !Truthy(ex.phone) then f.phone else ex.phone,
      website := if !Truthy(ex.website) then f.website else ex.website,
      sourceUrl := if !Truthy(ex.sourceUrl) then f.sourceUrl else ex.sourceUrl,
      rating := f.rating,
      reviewCount := f.reviewCount,
      hours := if !HasHours(ex.hours) then Some(f.hours) else ex.hours,
      category := if ex.category == "" then f.category else ex.category,
      tags := if ex.tags == [] then f.tags else ex.tags,
      apifyEnrichedAt := Some(f.stamp)
    )
  }

  /** The place after a matched item is merged into it. */
  function MergeItem(ex: Place, it: ApifyItem, env: Env): (r: Place)
    ensures r.id == ex.id && r.sourceId == ex.sourceId
  {
    Merge(ex, PatchFor(it, Some(ex), env))
  }

  /**
   * What a matched item does to its place: the name is always taken, the
   * scores always refreshed, the other fields filled only where they are
   * falsy, and the id, source id and every field the item cannot fill kept.
   */
  lemma MergeItemFields(ex: Place, it: ApifyItem, env: Env)
    ensures var r := MergeItem(ex, it, env);
      && r.name == Either(it.title, Either(ex.name, "Lugar sem nome"))
      && r.address == Either(ex.address, Either(it.address, "Endere\U{E7}o n\U{E3}o informado"))
      && r.latitude == (if !NumTruthy(ex.latitude) && it.lat.Some? then it.lat else ex.latitude)
      && r.longitude == (if !NumTruthy(ex.longitude) && it.lng.Some? then it.lng else ex.longitude)
      && r.distanceKm == (if !NumTruthy(ex.distanceKm) && it.lat.Some? && it.lng.Some?
                          then Some(env.distanceFromHotel(it.lat.value, it.lng.value)) else ex.distanceKm)
      && r.phone == (if Truthy(ex.phone) then ex.phone else NonEmpty(Either(it.phoneUnformatted, it.phone)))
      && r.website == (if Truthy(ex.website) then ex.website else NonEmpty(it.website))
      && r.sourceUrl == (if Truthy(ex.sourceUrl) then ex.sourceUrl else NonEmpty(it.url))
      && r.rating == Score(it.totalScore, ex.rating) && r.reviewCount == Score(it.reviewsCount, ex.reviewCount)
      && r.hours == (if HasHours(ex.hours) then ex.hours else Some(NormalizeHours(it.openingHours)))
      && r.category == Either(ex.category, MapCategory(it.categoryName, it.categories))
      && r.tags == (if ex.tags != [] then ex.tags else NormalizeTags(it.categoryName, it.categories))
      && r.apifyEnrichedAt == Some(env.nowIso)
      && r.(name := ex.name, address := ex.address, latitude := ex.latitude, longitude := ex.longitude,
            distanceKm := ex.distanceKm, phone := ex.phone, website := ex.website, sourceUrl := ex.sourceUrl,
            rating := ex.rating, reviewCount := ex.reviewCount, hours := ex.hours, category := ex.category,
            tags := ex.tags, apifyEnrichedAt := ex.apifyEnrichedAt) == ex
  {
  }

  /** Merging the same item again changes nothing. */
  lemma MergeIdempotent(ex: Place, it: ApifyItem, env: Env)
    ensures MergeItem(MergeItem(ex, it, env), it, env) == MergeItem(ex, it, env)
  {
  }

  /** The place appended for an unmatched item. */
  function NewFromItem(it: ApifyItem, env: Env): (r: Place)
    ensures r.id == it.placeId && r.sourceId == it.placeId
  {
    var f := PatchFor(it, None, env);
    Blank(it.placeId).(
      sourceId := it.placeId,
      name := f.name,
      category := f.category,
      rating := f.rating,
      reviewCount := f.reviewCount,
      priceLevel := 0.0,
      priceText := None,
      description := "",
      image := None,
      address := f.address,
      latitude := f.latitude,
      longitude := f.longitude,
      phone := f.phone,
      website := f.website,
      hours := Some(f.hours),
      tags := f.tags,
      sourceUrl := f.sourceUrl,
      gallery := Some([]),
      openStatusText := None,
      menuUrl := NonEmpty(it.menu),
      distanceKm := f.distanceKm,
      apifyEnrichedAt := Some(f.stamp)
    )
  }

  /**
   * The place appended for an unmatched item: keyed by the item's place id,
   * no image, an empty gallery, price level 0, and the item's fields.
   */
  lemma NewFromItemFields(it: ApifyItem, env: Env)
    ensures var r := NewFromItem(it, env);
      && r.name == Either(it.title, "Lugar sem nome")
      && r.address == Either(it.address, "Endere\U{E7}o n\U{E3}o informado")
      && r.latitude == it.lat && r.longitude == it.lng
      && r.distanceKm == DistanceIfBoth(env, it.lat, it.lng)
      && r.rating == Score(it.totalScore, 0.0) && r.reviewCount == Score(it.reviewsCount, 0.0)
      && r.priceLevel == 0.0 && r.priceText.None? && r.description == "" && r.image.None?
      && r.gallery == Some([]) && r.openStatusText.None? && r.menuUrl == NonEmpty(it.menu)
      && r.phone == NonEmpty(Either(it.phoneUnformatted, it.phone)) && r.website == NonEmpty(it.website)
      && r.sourceUrl == NonEmpty(it.url)
      && r.hours == Some(NormalizeHours(it.openingHours))
      && r.category == MapCategory(it.categoryName, it.categories)
      && r.tags == NormalizeTags(it.categoryName, it.categories)
      && r.apifyEnrichedAt == Some(env.nowIso)
  {
  }

  /** The fields whose `JSON.stringify` is compared before and after a merge. */
  datatype Snapshot = Snapshot(phone: Option<string>, website: Option<string>, hours: Option<seq<string>>, rating: real, reviewCount: real)

  function SnapshotOf(p: Place): Snapshot {
    Snapshot(p.phone, p.website, p.hours, p.rating, p.reviewCount)
  }

  /** A second merge of the same item never counts as an update. */
  lemma RemergeNotUpdated(ex: Place, it: ApifyItem, env: Env)
    ensures var once := MergeItem(ex, it, env); SnapshotOf(MergeItem(once, it, env)) == SnapshotOf(once)
  {
    MergeIdempotent(ex, it, env);
  }

  /** A new non-zero score that differs from the stored one always counts as an update. */
  lemma NewScoreUpdates(ex: Place, it: ApifyItem, env: Env)
    requires it.totalScore.Some? && it.totalScore.value != 0.0 && it.totalScore.value != ex.rating
    ensures SnapshotOf(MergeItem(ex, it, env)) != SnapshotOf(ex)
  {
  }

  // The run over the dataset

  /** `p.sourceId || p.id`, the key `byId` files a place under. */
  function IndexKey(p: Place): string {
    Either(p.sourceId, p.id)
  }

  /**
   * `byId` as the loop over `places` fills it: every place with a key is
   * filed under it, and a later place with the same key replaces an earlier.
   */
  function KeyIndex(places: seq<Place>): (m: map<string, nat>)
    ensures forall k :: k in m ==> k != "" && m[k] < |places| && IndexKey(places[m[k]]) == k
    ensures forall i :: 0 <= i < |places| && IndexKey(places[i]) != "" ==> IndexKey(places[i]) in m && i <= m[IndexKey(places[i])]
  {
    if places == [] then map[]
    else
      var prefix := places[..|places| - 1];
      var m := KeyIndex(prefix);
      var k := IndexKey(places[|places| - 1]);
      assert forall i :: 0 <= i < |prefix| ==> places[i] == prefix[i];
      if k != "" then m[k := |places| - 1] else m
  }

  /** The places, the index and the three counters of the merge loop. */
  datatype Sync = Sync(places: seq<Place>, byId: map<string, nat>, matched: nat, updated: nat, added: nat)

  /**
   * The two things the loop does to places: merge a matched item into a
   * place, and build the place for an unmatched one. The script's own pair is
   * `ScriptHandlers`; the loop is stated for any pair that keeps keys.
   */
  datatype Handlers = Handlers(merge: (Place, ApifyItem) -> Place, create: ApifyItem -> Place)

  /** A merge keeps the key a place is filed under, and a new place is filed under the item's id. */
  ghost predicate KeepsKeys(h: Handlers) {
    && (forall p, it :: IndexKey(h.merge(p, it)) == IndexKey(p))
    && (forall it :: IndexKey(h.create(it)) == it.placeId)
  }

  function ScriptHandlers(env: Env): (h: Handlers)
    ensures KeepsKeys(h)
    ensures forall p, it :: h.merge(p, it) == MergeItem(p, it, env)
    ensures forall it :: h.create(it) == NewFromItem(it, env)
  {
    Handlers((p, it) => MergeItem(p, it, env), it => NewFromItem(it, env))
  }

  /** Each key of the index names a place filed under that key. */
  ghost predicate Indexed(st: Sync) {
    forall k :: k in st.byId ==> k != "" && st.byId[k] < |st.places| && IndexKey(st.places[st.byId[k]]) == k
  }

  function Start(places: seq<Place>): (st: Sync)
    ensures Indexed(st)
  {
    Sync(places, KeyIndex(places), 0, 0, 0)
  }

  /** The merge of an item into `places[i]`, counted as matched and, when the snapshot changed, as updated. */
  function MergeAt(st: Sync, i: nat, it: ApifyItem, h: Handlers): (r: Sync)
    requires i < |st.places|
    ensures |r.places| == |st.places| && r.places[i] == h.merge(st.places[i], it)
    ensures forall j :: 0 <= j < |st.places| && j != i ==> r.places[j] == st.places[j]
    ensures r.byId == st.byId && r.added == st.added && r.matched == st.matched + 1
    ensures r.updated == st.updated + if SnapshotOf(st.places[i]) != SnapshotOf(h.merge(st.places[i], it)) then 1 else 0
  {
    var p := h.merge(st.places[i], it);
    st.(places := st.places[i := p], matched := st.matched + 1,
        updated := st.updated + if SnapshotOf(st.places[i]) != SnapshotOf(p) then 1 else 0)
  }

  /** `places.push(p); byId.set(placeId, p); added++` */
  function Append(st: Sync, p: Place): (r: Sync)
    ensures r.places == st.places + [p] && r.byId == st.byId[IndexKey(p) := |st.places|]
    ensures r.matched == st.matched && r.updated == st.updated && r.added == st.added + 1
  {
    st.(places := st.places + [p], byId := st.byId[IndexKey(p) := |st.places|], added := st.added + 1)
  }

  lemma MergeAtIndexed(st: Sync, i: nat, it: ApifyItem, h: Handlers)
    requires Indexed(st) && KeepsKeys(h) && i < |st.places|
    ensures Indexed(MergeAt(st, i, it, h))
  {
    var r := MergeAt(st, i, it, h);
    assert IndexKey(r.places[i]) == IndexKey(st.places[i]);
  }

  lemma AppendIndexed(st: Sync, p: Place)
    requires Indexed(st) && IndexKey(p) != "" && IndexKey(p) !in st.byId
    ensures Indexed(Append(st, p))
  {
  }

  /**
   * One item of the loop: skipped without a place id, merged into the place
   * the index gives for it, else appended and indexed when `addNew` is set.
   */
  function Absorbed(st: Sync, it: ApifyItem, addNew: bool, h: Handlers): (r: Sync)
    requires Indexed(st) && KeepsKeys(h)
    ensures Indexed(r)
  {
    if it.placeId == "" then st
    else if it.placeId in st.byId then
      MergeAtIndexed(st, st.byId[it.placeId], it, h);
      MergeAt(st, st.byId[it.placeId], it, h)
    else if addNew then
      AppendIndexed(st, h.create(it));
      Append(st, h.create(it))
    else st
  }

  /**
   * The counters of one item: `matched` counts an item whose id is in the
   * index, `added` an appended one, `updated` a merge that changed the
   * snapshot; an item without a place id changes nothing.
   */
  lemma AbsorbedCounts(st: Sync, it: ApifyItem, addNew: bool, h: Handlers)
    requires Indexed(st) && KeepsKeys(h)
    ensures var r := Absorbed(st, it, addNew, h);
      && (it.placeId == "" ==> r == st)
      && r.matched == st.matched + (if it.placeId != "" && it.placeId in st.byId then 1 else 0)
      && r.added == st.added + (if it.placeId != "" && it.placeId !in st.byId && addNew then 1 else 0)
      && r.updated == st.updated + (if it.placeId != "" && it.placeId in st.byId
                                    && SnapshotOf(st.places[st.byId[it.placeId]]) != SnapshotOf(h.merge(st.places[st.byId[it.placeId]], it))
                                    then 1 else 0)
  {
  }

  /** The loop over the items from `st` on. */
  function SyncFrom(items: seq<ApifyItem>, st: Sync, addNew: bool, h: Handlers): (r: Sync)
    requires Indexed(st) && KeepsKeys(h)
    ensures Indexed(r)
    ensures st.updated <= r.updated && r.updated - st.updated <= r.matched - st.matched
    ensures st.added <= r.added && (r.matched - st.matched) + (r.added - st.added) <= |items|
    decreases |items|
  {
    if items == [] then st
    else
      AbsorbedCounts(st, items[0], addNew, h);
      SyncFrom(items[1..], Absorbed(st, items[0], addNew, h), addNew, h)
  }

  /** The whole run over `items`, starting from the stored places. */
  function SyncAll(places: seq<Place>, items: seq<ApifyItem>, addNew: bool, env: Env): (r: Sync) {
    SyncFrom(items, Start(places), addNew, ScriptHandlers(env))
  }

  /** `places[i]` is not the place the index files its key under. */
  ghost predicate Shadowed(st: Sync, i: nat)
    requires i < |st.places|
  {
    IndexKey(st.places[i]) !in st.byId || st.byId[IndexKey(st.places[i])] != i
  }

  /**
   * How a run relates to the state it began with: places are only ever
   * appended, every place keeps its key, the old index entries stay, each
   * appended place is indexed under a key new to the run, and a shadowed
   * place is never touched.
   */
  ghost predicate Extends(st0: Sync, st: Sync) {
    && |st.places| == |st0.places| + st.added - st0.added
    && st0.added <= st.added
    && (forall i :: 0 <= i < |st0.places| ==> IndexKey(st.places[i]) == IndexKey(st0.places[i]))
    && (forall k :: k in st0.byId ==> k in st.byId && st.byId[k] == st0.byId[k])
    && (forall i :: |st0.places| <= i < |st.places| ==>
          IndexKey(st.places[i]) in st.byId && st.byId[IndexKey(st.places[i])] == i && IndexKey(st.places[i]) !in st0.byId)
    && (forall i :: 0 <= i < |st0.places| && Shadowed(st0, i) ==> st.places[i] == st0.places[i] && Shadowed(st, i))
  }

  /** Merging into the place a key is filed under keeps a run an extension. */
  lemma MergeExtends(st0: Sync, st: Sync, j: nat, it: ApifyItem, h: Handlers)
    requires Extends(st0, st) && KeepsKeys(h) && j < |st.places| && IndexKey(st.places[j]) in st.byId && st.byId[IndexKey(st.places[j])] == j
    ensures Extends(st0, MergeAt(st, j, it, h))
  {
    var r := MergeAt(st, j, it, h);
    assert IndexKey(r.places[j]) == IndexKey(st.places[j]);
    forall i | 0 <= i < |st0.places| && Shadowed(st0, i)
      ensures r.places[i] == st0.places[i] && Shadowed(r, i)
    {
      assert Shadowed(st, i);
    }
  }

  /** Appending a place under a key not yet in the index keeps a run an extension. */
  lemma AppendExtends(st0: Sync, st: Sync, p: Place)
    requires Extends(st0, st) && IndexKey(p) !in st.byId
    ensures Extends(st0, Append(st, p))
  {
    var r := Append(st, p);
    forall i | 0 <= i < |st0.places| && Shadowed(st0, i)
      ensures r.places[i] == st0.places[i] && Shadowed(r, i)
    {
      assert Shadowed(st, i);
    }
  }

  lemma AbsorbedExtends(st0: Sync, st: Sync, it: ApifyItem, addNew: bool, h: Handlers)
    requires Indexed(st) && KeepsKeys(h) && Extends(st0, st)
    ensures Extends(st0, Absorbed(st, it, addNew, h))
  {
    if it.placeId != "" && it.placeId in st.byId {
      MergeExtends(st0, st, st.byId[it.placeId], it, h);
    } else if it.placeId != "" && addNew {
      AppendExtends(st0, st, h.create(it));
    }
  }

  lemma {:induction false} SyncFromExtends(st0: Sync, items: seq<ApifyItem>, st: Sync, addNew: bool, h: Handlers)
    requires Indexed(st) && KeepsKeys(h) && Extends(st0, st)
    ensures Extends(st0, SyncFrom(items, st, addNew, h))
    decreases |items|
  {
    if items != [] {
      AbsorbedExtends(st0, st, items[0], addNew, h);
      SyncFromExtends(st0, items[1..], Absorbed(st, items[0], addNew, h), addNew, h);
    }
  }

  lemma {:induction false} SyncFromNoAdd(items: seq<ApifyItem>, st: Sync, h: Handlers)
    requires Indexed(st) && KeepsKeys(h)
    ensures SyncFrom(items, st, false, h).added == st.added
    decreases |items|
  {
    if items != [] {
      SyncFromNoAdd(items[1..], Absorbed(st, items[0], false, h), h);
    }
  }

  /** A place is shadowed at the start exactly when it has no key or a later place has the same key. */
  lemma ShadowedAtStart(places: seq<Place>, i: nat)
    requires i < |places|
    ensures Shadowed(Start(places), i) <==>
      IndexKey(places[i]) == "" || exists j :: i < j < |places| && IndexKey(places[j]) == IndexKey(places[i])
  {
    var m := KeyIndex(places);
    var k := IndexKey(places[i]);
    if k != "" && Shadowed(Start(places), i) {
      assert m[k] != i && i <= m[k] && IndexKey(places[m[k]]) == k;
    }
  }

  /**
   * What a run promises: the stored places keep their positions and keys,
   * and only the place each key is filed under is merged into; the appended
   * places have distinct keys that were not in the store; nothing is
   * appended without `--add-new`; and the counters are bounded by each other
   * and by the number of items.
   */
  lemma SyncFacts(places: seq<Place>, items: seq<ApifyItem>, addNew: bool, env: Env)
    ensures var r := SyncAll(places, items, addNew, env);
      && |r.places| == |places| + r.added
      && r.updated <= r.matched && r.matched + r.added <= |items|
      && (forall i :: 0 <= i < |places| ==> IndexKey(r.places[i]) == IndexKey(places[i]))
      && (forall i :: 0 <= i < |places| && Shadowed(Start(places), i) ==> r.places[i] == places[i])
      && (forall i :: |places| <= i < |r.places| ==> IndexKey(r.places[i]) !in KeyIndex(places))
      && (forall i, j :: |places| <= i < j < |r.places| ==> IndexKey(r.places[i]) != IndexKey(r.places[j]))
      && (!addNew ==> r.added == 0)
  {
    var st := Start(places);
    var h := ScriptHandlers(env);
    SyncFromExtends(st, items, st, addNew, h);
    SyncFromNoAdd(items, st, h);
  }

  /** An item repeated after its place was appended merges into that new place. */
  lemma RepeatMergesIntoAdded(st: Sync, it: ApifyItem, again: ApifyItem, h: Handlers)
    requires Indexed(st) && KeepsKeys(h) && it.placeId != "" && it.placeId !in st.byId && again.placeId == it.placeId
    ensures var r := Absorbed(Absorbed(st, it, true, h), again, true, h);
      && r.added == st.added + 1 && r.matched == st.matched + 1 && |r.places| == |st.places| + 1
      && r.places[|st.places|] == h.merge(h.create(it), again)
  {
  }

  /** The objects `main` changes as it goes: the places, `byId` and the three counters. */
  class Catalogue {
    var places: seq<Place>
    var byId: map<string, nat>
    var matched: nat
    var updated: nat
    var added: nat

    function State(): Sync
      reads this
    {
      Sync(places, byId, matched, updated, added)
    }

    /** Takes the stored places and files each under its key, as the first loop of `main` does. */
    constructor (stored: seq<Place>)
      ensures State() == Start(stored)
    {
      places := stored;
      var m: map<string, nat> := map[];
      var i := 0;
      while i < |stored|
        invariant i <= |stored| && m == KeyIndex(stored[..i])
      {
        assert stored[..i + 1][..i] == stored[..i];
        var pid := Either(stored[i].sourceId, stored[i].id);
        if pid != "" {
          m := m[pid := i];
        }
        i := i + 1;
      }
      assert stored[..|stored|] == stored;
      byId := m;
      matched, updated, added := 0, 0, 0;
    }

    /** One turn of the loop over the dataset items. */
    method Absorb(it: ApifyItem, addNew: bool, h: Handlers)
      requires Indexed(State()) && KeepsKeys(h)
      modifies this
      ensures State() == Absorbed(old(State()), it, addNew, h)
    {
      if it.placeId == "" {
        return;
      }
      if it.placeId in byId {
        var i := byId[it.placeId];
        matched := matched + 1;
        var before := SnapshotOf(places[i]);
        var p := h.merge(places[i], it);
        places := places[i := p];
        if before != SnapshotOf(p) {
          updated := updated + 1;
        }
      } else if addNew {
        var p := h.create(it);
        places := places + [p];
        byId := byId[it.placeId := |places| - 1];
        added := added + 1;
      }
    }
  }

  lemma SyncStep(items: seq<ApifyItem>, i: nat, st: Sync, addNew: bool, h: Handlers)
    requires i < |items| && Indexed(st) && KeepsKeys(h)
    ensures SyncFrom(items[i..], st, addNew, h) == SyncFrom(items[i + 1..], Absorbed(st, items[i], addNew, h), addNew, h)
  {
    assert items[i..][1..] == items[i + 1..];
  }

  /** The merge loop of `main`: the places, index and counters it ends with. */
  method SyncItems(stored: seq<Place>, items: seq<ApifyItem>, addNew: bool, env: Env) returns (r: Sync)
    ensures r == SyncAll(stored, items, addNew, env)
  {
    var h := ScriptHandlers(env);
    var c := new Catalogue(stored);
    var i := 0;
    while i < |items|
      invariant i <= |items| && Indexed(c.State())
      invariant SyncFrom(items[i..], c.State(), addNew, h) == SyncAll(stored, items, addNew, env)
    {
      SyncStep(items, i, c.State(), addNew, h);
      c.Absorb(items[i], addNew, h);
      i := i + 1;
    }
    r := c.State();
  }

  /** The counts of `apify-report.json`. */
  datatype Report = Report(items: nat, matched: nat, updated: nat, added: nat, totalPlaces: nat)

  function ReportOf(items: seq<ApifyItem>, r: Sync): Report {
    Report(|items|, r.matched, r.updated, r.added, |r.places|)
  }

  lemma ReportAddsUp(places: seq<Place>, items: seq<ApifyItem>, addNew: bool, env: Env)
    ensures var rep := ReportOf(items, SyncAll(places, items, addNew, env));
      rep.totalPlaces == |places| + rep.added && rep.updated <= rep.matched && rep.matched + rep.added <= rep.items
  {
    SyncFacts(places, items, addNew, env);
  }
}
