/**
 * `scripts/expand-google-places.js`: the stored places are extended with
 * Google Places text-search results for a fixed list of queries, up to a
 * target total, without adding any place the document already holds.
 */
module ExpandGooglePlaces {
  import opened Wrappers
  import opened Js
  import opened Uri
  import opened Places
  import opened Rules
  import opened CommonRules

  // Command line

  datatype Options = Options(target: real, sleepMs: real, maxPerQuery: real, photoMaxWidth: real)

  const Defaults := Options(500.0, 250.0, 60.0, 1000.0)

  /** `Number(...) || fallback`: NaN and `0` give the fallback. */
  function NumberOr(v: Option<real>, fallback: real): (r: real)
    ensures NumTruthy(v) ==> r == v.value
    ensures !NumTruthy(v) ==> r == fallback
  {
    if NumTruthy(v) then v.value else fallback
  }

  /** The four flags, each of which reads the argument after it. */
  predicate ValueFlag(a: string) {
    a == "--target" || a == "--sleep" || a == "--max-per-query" || a == "--photo-width"
  }

  /**
   * One turn of `parseArgs`' loop at `args[i]`: the options after it, and the
   * index of the next flag (each of the four flags takes a value).
   */
  function ApplyFlag(args: seq<string>, i: nat, out: Options): (r: (Options, nat))
    requires i < |args|
    ensures r.1 == i + 1 || r.1 == i + 2
    ensures r.1 == i + 2 <==> ValueFlag(args[i])
    ensures !ValueFlag(args[i]) ==> r.0 == out
    ensures args[i] == "--target" ==> r.0 == out.(target := NumberOr(FlagValue(args, i), 500.0))
    ensures args[i] == "--sleep" ==> r.0 == out.(sleepMs := NumberOr(FlagValue(args, i), 250.0))
    ensures args[i] == "--max-per-query" ==> r.0 == out.(maxPerQuery := NumberOr(FlagValue(args, i), 60.0))
    ensures args[i] == "--photo-width" ==> r.0 == out.(photoMaxWidth := NumberOr(FlagValue(args, i), 1000.0))
  {
    var a := args[i];
    var v := FlagValue(args, i);
    if a == "--target" then (out.(target := NumberOr(v, 500.0)), i + 2)
    else if a == "--sleep" then (out.(sleepMs := NumberOr(v, 250.0)), i + 2)
    else if a == "--max-per-query" then (out.(maxPerQuery := NumberOr(v, 60.0)), i + 2)
    else if a == "--photo-width" then (out.(photoMaxWidth := NumberOr(v, 1000.0)), i + 2)
    else (out, i + 1)
  }

  /** The loop of `parseArgs` from index `i`, with `out` as it stands. */
  function ScanArgs(args: seq<string>, i: nat, out: Options): Options
    decreases |args| - i
  {
    if i >= |args| then out
    else ScanArgs(args, ApplyFlag(args, i, out).1, ApplyFlag(args, i, out).0)
  }

  /** `parseArgs()` */
  function ParseArgs(args: seq<string>): Options {
    ScanArgs(args, 0, Defaults)
  }

  /** `parseArgs()` as the script runs it: one pass over the arguments. */
  method ParseArgsLoop(args: seq<string>) returns (out: Options)
    ensures out == ParseArgs(args)
  {
    out := Defaults;
    var i := 0;
    while i < |args|
      invariant ScanArgs(args, i, out) == ScanArgs(args, 0, Defaults)
      decreases |args| - i
    {
      var step := ApplyFlag(args, i, out);
      out, i := step.0, step.1;
    }
  }

  /** With no arguments: target 500, 250 ms pauses, 60 places a query, photos 1000 px wide. */
  lemma NoArgsDefaults()
    ensures ParseArgs([]) == Options(500.0, 250.0, 60.0, 1000.0)
  {
  }

  /** `--target 0` keeps the default target. */
  lemma TargetZeroIsDefault()
    ensures ParseArgs(["--target", "0"]).target == 500.0
  {
    ParseDigits("0");
    assert FlagValue(["--target", "0"], 0) == Some(0.0);
  }

  predicate NoZero(out: Options) {
    out.target != 0.0 && out.sleepMs != 0.0 && out.maxPerQuery != 0.0 && out.photoMaxWidth != 0.0
  }

  lemma {:induction false} ScanKeepsNoZero(args: seq<string>, i: nat, out: Options)
    requires NoZero(out)
    ensures NoZero(ScanArgs(args, i, out))
    decreases |args| - i
  {
    if i < |args| {
      ScanKeepsNoZero(args, ApplyFlag(args, i, out).1, ApplyFlag(args, i, out).0);
    }
  }

  /** Whatever the arguments, no option ends as `0`: a zero or unreadable value falls back to the default. */
  lemma OptionsNeverZero(args: seq<string>)
    ensures NoZero(ParseArgs(args))
  {
    ScanKeepsNoZero(args, 0, Defaults);
  }

  // Retried text searches

  /** One entry of `json.results`; `None` where a number is absent (or not finite), `""` where a string is. */
  datatype SearchResult = SearchResult(
    placeId: string,
    name: string,
    /** `r.types` when it is an array, else `[]`. */
    types: seq<string>,
    lat: Option<real>,
    lng: Option<real>,
    rating: Option<real>,
    userRatingsTotal: Option<real>,
    priceLevel: Option<real>,
    formattedAddress: string,
    vicinity: string,
    /** `r.photos?.[0]?.photo_reference` */
    photoRef: string
  )

  /** A text-search answer; `results` is `[]` when the answer has no array, `nextPageToken` `""` when absent. */
  datatype SearchAnswer = SearchAnswer(status: string, results: seq<SearchResult>, nextPageToken: string)

  /** A page token that is not active yet: retried with a slowly growing pause. */
  predicate TokenNotReady(status: string, hasToken: bool) {
    status == "INVALID_REQUEST" && hasToken
  }

  /** Quota and server errors: retried with a doubling pause. */
  predicate Throttled(status: string) {
    status == "OVER_QUERY_LIMIT" || status == "UNKNOWN_ERROR"
  }

  const InitialBackoffMs := 1500
  const TokenStepMs := 800
  const TokenMaxBackoffMs := 6000
  const MaxBackoffMs := 15000
  const TokenMaxAttempts := 5
  const MaxAttempts := 6

  /** Whether the answer of the `attempt`-th call (counting from 1) leads to another call. */
  predicate Retried(status: string, hasToken: bool, attempt: nat) {
    (TokenNotReady(status, hasToken) && attempt < TokenMaxAttempts) || (Throttled(status) && attempt < MaxAttempts)
  }

  function Min(a: int, b: int): int {
    if a < b then a else b
  }

  /**
   * The pause before the call after call `k` (counting from 0): 1500 ms at
   * first, then 800 ms more after an inactive token (at most 6000 ms) or
   * twice as long after a quota error (at most 15000 ms).
   */
  function SearchBackoff(responses: nat -> SearchAnswer, hasToken: bool, k: nat): (ms: int)
    ensures InitialBackoffMs <= ms <= MaxBackoffMs
  {
    if k == 0 then InitialBackoffMs
    else
      var b := SearchBackoff(responses, hasToken, k - 1);
      if TokenNotReady(responses(k - 1).status, hasToken) then Min(b + TokenStepMs, TokenMaxBackoffMs)
      else Min(2 * b, MaxBackoffMs)
  }

  /** How many calls `textSearchWithRetry` makes, counting from call `k`. */
  function SearchCallsFrom(responses: nat -> SearchAnswer, hasToken: bool, k: nat): (n: nat)
    ensures n > k
    ensures k < MaxAttempts ==> n <= MaxAttempts
    decreases if k < MaxAttempts then MaxAttempts - k else 0
  {
    if Retried(responses(k).status, hasToken, k + 1) then SearchCallsFrom(responses, hasToken, k + 1) else k + 1
  }

  function SearchCalls(responses: nat -> SearchAnswer, hasToken: bool): (n: nat)
    ensures 1 <= n <= MaxAttempts
  {
    SearchCallsFrom(responses, hasToken, 0)
  }

  /** What `textSearchWithRetry` returns: the answer of its last call. */
  function Answered(responses: nat -> SearchAnswer, hasToken: bool): SearchAnswer {
    responses(SearchCalls(responses, hasToken) - 1)
  }

  lemma {:induction false} SearchCallsFromShape(responses: nat -> SearchAnswer, hasToken: bool, k: nat)
    requires forall j :: 0 <= j < k ==> Retried(responses(j).status, hasToken, j + 1)
    ensures var n := SearchCallsFrom(responses, hasToken, k);
      (forall j :: 0 <= j < n - 1 ==> Retried(responses(j).status, hasToken, j + 1))
      && !Retried(responses(n - 1).status, hasToken, n)
    decreases if k < MaxAttempts then MaxAttempts - k else 0
  {
    if Retried(responses(k).status, hasToken, k + 1) {
      SearchCallsFromShape(responses, hasToken, k + 1);
    }
  }

  /**
   * The calls made: between one and six; every answer but the last was
   * retried, and the last was not (it is a plain answer, or the attempts for
   * its kind of error are used up).
   */
  lemma SearchCallsShape(responses: nat -> SearchAnswer, hasToken: bool)
    ensures var n := SearchCalls(responses, hasToken);
      1 <= n <= MaxAttempts
      && (forall j :: 0 <= j < n - 1 ==> Retried(responses(j).status, hasToken, j + 1))
      && !Retried(responses(n - 1).status, hasToken, n)
  {
    SearchCallsFromShape(responses, hasToken, 0);
  }

  lemma {:induction false} TokenCallsFrom(responses: nat -> SearchAnswer, k: nat)
    requires k < TokenMaxAttempts
    requires forall j :: 0 <= j < TokenMaxAttempts ==> responses(j).status == "INVALID_REQUEST"
    ensures SearchCallsFrom(responses, true, k) == TokenMaxAttempts
    decreases TokenMaxAttempts - k
  {
    if k + 1 < TokenMaxAttempts {
      TokenCallsFrom(responses, k + 1);
    }
  }

  /** A page token that never becomes active is asked for five times. */
  lemma TokenGivesUpAtFive(responses: nat -> SearchAnswer)
    requires forall j :: 0 <= j < TokenMaxAttempts ==> responses(j).status == "INVALID_REQUEST"
    ensures SearchCalls(responses, true) == TokenMaxAttempts
  {
    TokenCallsFrom(responses, 0);
  }

  /** Without a page token `INVALID_REQUEST` is final: one call. */
  lemma InvalidWithoutTokenIsFinal(responses: nat -> SearchAnswer)
    requires responses(0).status == "INVALID_REQUEST"
    ensures SearchCalls(responses, false) == 1 && Answered(responses, false) == responses(0)
  {
  }

  lemma {:induction false} ThrottledCallsFrom(responses: nat -> SearchAnswer, hasToken: bool, k: nat)
    requires k < MaxAttempts
    requires forall j :: 0 <= j < MaxAttempts ==> Throttled(responses(j).status)
    ensures SearchCallsFrom(responses, hasToken, k) == MaxAttempts
    decreases MaxAttempts - k
  {
    if k + 1 < MaxAttempts {
      ThrottledCallsFrom(responses, hasToken, k + 1);
    }
  }

  /** Quota errors that never clear are met with six calls. */
  lemma ThrottledGivesUpAtSix(responses: nat -> SearchAnswer, hasToken: bool)
    requires forall j :: 0 <= j < MaxAttempts ==> Throttled(responses(j).status)
    ensures SearchCalls(responses, hasToken) == MaxAttempts
  {
    ThrottledCallsFrom(responses, hasToken, 0);
  }

  /** After inactive tokens only, the pauses are 1500, 2300, 3100, … ms, cut at 6000. */
  lemma {:induction false} TokenBackoffLinear(responses: nat -> SearchAnswer, k: nat)
    requires forall j :: 0 <= j < k ==> responses(j).status == "INVALID_REQUEST"
    ensures SearchBackoff(responses, true, k) == Min(InitialBackoffMs + TokenStepMs * k, TokenMaxBackoffMs)
  {
    if k > 0 {
      TokenBackoffLinear(responses, k - 1);
    }
  }

  /** After quota errors only, the pauses are 1500 · 2^k ms, cut at 15000. */
  lemma {:induction false} ThrottledBackoffDoubles(responses: nat -> SearchAnswer, hasToken: bool, k: nat)
    requires forall j :: 0 <= j < k ==> Throttled(responses(j).status)
    ensures SearchBackoff(responses, hasToken, k) == Min(InitialBackoffMs * Pow2(k), MaxBackoffMs)
  {
    if k > 0 {
      ThrottledBackoffDoubles(responses, hasToken, k - 1);
    }
  }

  /** The pauses before calls `1 .. n`, in order. */
  function Backoffs(responses: nat -> SearchAnswer, hasToken: bool, n: nat): (ws: seq<int>)
    ensures |ws| == n && forall k :: 0 <= k < n ==> ws[k] == SearchBackoff(responses, hasToken, k)
  {
    if n == 0 then [] else Backoffs(responses, hasToken, n - 1) + [SearchBackoff(responses, hasToken, n - 1)]
  }

  /** One call of the retry loop: the answer of call `k` decides the next call and the next pause. */
  lemma SearchStep(responses: nat -> SearchAnswer, hasToken: bool, k: nat)
    ensures Retried(responses(k).status, hasToken, k + 1) ==>
            SearchCallsFrom(responses, hasToken, k) == SearchCallsFrom(responses, hasToken, k + 1)
    ensures !Retried(responses(k).status, hasToken, k + 1) ==> SearchCallsFrom(responses, hasToken, k) == k + 1
    ensures TokenNotReady(responses(k).status, hasToken) ==> !Throttled(responses(k).status)
    ensures SearchBackoff(responses, hasToken, k + 1)
            == if TokenNotReady(responses(k).status, hasToken) then Min(SearchBackoff(responses, hasToken, k) + TokenStepMs, TokenMaxBackoffMs)
               else Min(2 * SearchBackoff(responses, hasToken, k), MaxBackoffMs)
  {
  }

  /**
   * `textSearchWithRetry(query, pagetoken)`: `responses(k)` is what the
   * `k`-th call for this query and token answers; `waits` are the pauses
   * taken, in order.
   */
  method TextSearchWithRetry(responses: nat -> SearchAnswer, hasToken: bool) returns (json: SearchAnswer, attempts: nat, waits: seq<int>)
    ensures attempts == SearchCalls(responses, hasToken) && json == Answered(responses, hasToken)
    ensures waits == Backoffs(responses, hasToken, attempts - 1)
  {
    attempts := 0;
    var backoffMs := InitialBackoffMs;
    waits := [];
    while true
      invariant attempts < MaxAttempts
      invariant backoffMs == SearchBackoff(responses, hasToken, attempts)
      invariant waits == Backoffs(responses, hasToken, attempts)
      invariant SearchCallsFrom(responses, hasToken, attempts) == SearchCalls(responses, hasToken)
      decreases MaxAttempts - attempts
    {
      SearchStep(responses, hasToken, attempts);
      attempts := attempts + 1;
      json := responses(attempts - 1);
      if TokenNotReady(json.status, hasToken) {
        if attempts >= TokenMaxAttempts {
          return;
        }
        waits := waits + [backoffMs];
        backoffMs := Min(backoffMs + TokenStepMs, TokenMaxBackoffMs);
        continue;
      }
      if Throttled(json.status) {
        if attempts >= MaxAttempts {
          return;
        }
        waits := waits + [backoffMs];
        backoffMs := Min(2 * backoffMs, MaxBackoffMs);
        continue;
      }
      return;
    }
  }

  // The new place records

  /** A search of the fixed list, with the category its results fall back to. */
  datatype Query = Query(query: string, hintCategory: string)

  const SearchQueries: seq<Query> := [
    Query("restaurantes Goi\U{E2}nia", "restaurants"),
    Query("churrascaria Goi\U{E2}nia", "restaurants"),
    Query("pizzaria Goi\U{E2}nia", "restaurants"),
    Query("sushi Goi\U{E2}nia", "restaurants"),
    Query("comida t\U{ED}pica goiana Goi\U{E2}nia", "restaurants"),
    Query("cafeteria Goi\U{E2}nia", "cafes"),
    Query("caf\U{E9} especial Goi\U{E2}nia", "cafes"),
    Query("padaria artesanal Goi\U{E2}nia", "cafes"),
    Query("bares Goi\U{E2}nia", "nightlife"),
    Query("pub Goi\U{E2}nia", "nightlife"),
    Query("cervejaria Goi\U{E2}nia", "nightlife"),
    Query("parque Goi\U{E2}nia", "nature"),
    Query("pra\U{E7}a Goi\U{E2}nia", "nature"),
    Query("museu Goi\U{E2}nia", "culture"),
    Query("teatro Goi\U{E2}nia", "culture"),
    Query("shopping Goi\U{E2}nia", "shopping"),
    Query("pontos tur\U{ED}sticos Goi\U{E2}nia", "attractions"),
    Query("o que fazer em Goi\U{E2}nia", "attractions")
  ]

  /** The tag table of `normalizeTags` in this script. */
  const TagRules: seq<Rule> := [
    Rule(["restaurant", "meal_takeaway", "meal_delivery", "food"], "Restaurante"),
    Rule(["cafe"], "Caf\U{E9}"),
    Rule(["bar", "night_club"], "Bar"),
    Rule(["tourist_attraction"], "Passeio"),
    Rule(["park"], "Parque"),
    Rule(["museum"], "Museu"),
    Rule(["shopping_mall"], "Shopping")
  ]

  /** The seven categories of the site. */
  predicate KnownCategory(c: string) {
    c in {"nightlife", "cafes", "restaurants", "shopping", "nature", "culture", "attractions"}
  }

  /**
   * The image of a result: the redirect target for its first photo
   * reference, fetched `photoMaxWidth` wide; `resolve` answers `""` where the
   * redirect gave no location.
   */
  function ImageOf(r: SearchResult, opts: Options, resolve: (string, real) -> string): (image: Option<string>)
    ensures image.Some? ==> r.photoRef != "" && image.value != ""
  {
    if r.photoRef != "" then NonEmpty(resolve(r.photoRef, opts.photoMaxWidth)) else None
  }

  /** `mapCategoryFromTypes(types) || q.hintCategory || "attractions"` */
  function CategoryOf(r: SearchResult, q: Query): (c: string)
    ensures c != ""
    ensures MapCategoryFromTypes(r.types).Some? ==> c == MapCategoryFromTypes(r.types).value
    ensures MapCategoryFromTypes(r.types).None? && q.hintCategory != "" ==> c == q.hintCategory
    ensures MapCategoryFromTypes(r.types).None? && q.hintCategory == "" ==> c == "attractions"
  {
    Either(MapCategoryFromTypes(r.types).GetOr(q.hintCategory), "attractions")
  }

  /** The Google Maps search link of a result: its name (or the city) and its place id. */
  function SearchUrl(r: SearchResult): string {
    "https://www.google.com/maps/search/?api=1&query=" + EncodeUriComponent(Either(r.name, "Goi\U{E2}nia"))
    + "&query_place_id=" + r.placeId
  }

  /** The record built for a new result `r` of query `q`. */
  function NewPlace(r: SearchResult, q: Query, opts: Options, env: Env, resolve: (string, real) -> string): (p: Place)
    ensures p.id == p.sourceId == r.placeId
    ensures p.name != "" && (r.name != "" ==> p.name == r.name)
    ensures p.category == CategoryOf(r, q)
    ensures p.rating == OrZero(r.rating) && p.reviewCount == OrZero(r.userRatingsTotal)
    ensures p.priceLevel == OrZero(r.priceLevel) && (p.priceText.Some? <==> p.priceLevel > 0.0)
    ensures p.priceText == MoneyText(p.priceLevel)
    ensures p.description == "" && p.address != ""
    ensures p.latitude == r.lat && p.longitude == r.lng && p.distanceKm == DistanceIfBoth(env, r.lat, r.lng)
    ensures p.phone.None? && p.website.None? && p.hours == Some([]) && p.openStatusText.None? && p.menuUrl.None?
    ensures p.tags == TypeTags(r.types, TagRules)
    ensures p.image == ImageOf(r, opts, resolve)
    ensures p.gallery == Some(if p.image.Some? then [p.image.value] else [])
    ensures p.sourceUrl == Some(SearchUrl(r)) && p.discoveredAt == Some(env.nowIso)
  {
    var image := ImageOf(r, opts, resolve);
    Blank(r.placeId).(
      sourceId := r.placeId,
      name := Either(r.name, "Lugar sem nome"),
      category := CategoryOf(r, q),
      rating := OrZero(r.rating),
      reviewCount := OrZero(r.userRatingsTotal),
      priceLevel := OrZero(r.priceLevel),
      priceText := MoneyText(r.priceLevel.GetOr(0.0)),
      description := "",
      image := image,
      address := Either(r.formattedAddress, Either(r.vicinity, "Endere\U{E7}o n\U{E3}o informado")),
      latitude := r.lat,
      longitude := r.lng,
      distanceKm := DistanceIfBoth(env, r.lat, r.lng),
      phone := None,
      website := None,
      hours := Some([]),
      tags := TypeTags(r.types, TagRules),
      sourceUrl := Some(SearchUrl(r)),
      gallery := Some(if image.Some? then [image.value] else []),
      openStatusText := None,
      menuUrl := None,
      discoveredAt := Some(env.nowIso)
    )
  }

  /** Every query of the list has a hint, so a new place always lands in one of the site's categories. */
  lemma CategoryKnown(r: SearchResult, q: Query)
    requires q in SearchQueries
    ensures KnownCategory(CategoryOf(r, q))
  {
  }

  // Discovery

  /**
   * What the loops of `main` carry: the places `added` so far, the `existing`
   * ids, `collectedForQuery`, and how many pages were asked for.
   */
  datatype Found = Found(added: seq<Place>, existing: set<string>, collected: nat, pages: nat)

  /**
   * The fixed inputs of the loops: how many places the base document holds,
   * the target and the per-query cap, the search service (`api(query,
   * token)` answers the calls for that query and page token, in order) and
   * how a result becomes a record.
   */
  datatype Ctx = Ctx(
    base: nat,
    target: real,
    maxPerQuery: real,
    api: (string, string) -> nat -> SearchAnswer,
    make: (SearchResult, Query) -> Place
  )

  /** `places.length + added.length >= target` */
  predicate Reached(st: Found, c: Ctx) {
    (c.base + |st.added|) as real >= c.target
  }

  /** The test at the head of the page and result loops. */
  predicate Full(st: Found, c: Ctx) {
    Reached(st, c) || st.collected as real >= c.maxPerQuery
  }

  /** One result: skipped when it has no place id or the id is known, otherwise added. */
  function Offer(st: Found, r: SearchResult, q: Query, c: Ctx): (s: Found)
    ensures r.placeId == "" || r.placeId in st.existing ==> s == st
    ensures r.placeId != "" && r.placeId !in st.existing ==>
      s == st.(added := st.added + [c.make(r, q)], existing := st.existing + {r.placeId}, collected := st.collected + 1)
  {
    if r.placeId == "" || r.placeId in st.existing then st
    else st.(added := st.added + [c.make(r, q)], existing := st.existing + {r.placeId}, collected := st.collected + 1)
  }

  /** The results loop of one page. */
  function Results(rs: seq<SearchResult>, st: Found, q: Query, c: Ctx): Found
    decreases |rs|
  {
    if rs == [] || Full(st, c) then st else Results(rs[1..], Offer(st, rs[0], q, c), q, c)
  }

  /** The page loop of query `q`, from page `page` with `token` (`""` before the first page). */
  function Pages(q: Query, page: nat, token: string, st: Found, c: Ctx): Found
    decreases if page < 3 then 3 - page else 0
  {
    if page >= 3 || Full(st, c) then st
    else
      var json := Answered(c.api(q.query, token), token != "");
      var asked := st.(pages := st.pages + 1);
      if json.status != "OK" && json.status != "ZERO_RESULTS" then asked
      else
        var got := Results(json.results, asked, q, c);
        if json.nextPageToken == "" then got else Pages(q, page + 1, json.nextPageToken, got, c)
  }

  /** The query loop; each query starts with `collectedForQuery = 0`. */
  function Queries(qs: seq<Query>, st: Found, c: Ctx): Found
    decreases |qs|
  {
    if qs == [] || Reached(st, c) then st
    else Queries(qs[1..], Pages(qs[0], 0, "", st.(collected := 0), c), c)
  }

  /** `new Set(places.map((p) => p.sourceId || p.id).filter(Boolean))` */
  function BaseIds(places: seq<Place>): (ids: set<string>)
    ensures "" !in ids
    ensures forall i :: 0 <= i < |places| && Either(places[i].sourceId, places[i].id) != "" ==> Either(places[i].sourceId, places[i].id) in ids
  {
    set i | 0 <= i < |places| && Either(places[i].sourceId, places[i].id) != "" :: Either(places[i].sourceId, places[i].id)
  }

  function Start(places: seq<Place>): Found {
    Found([], BaseIds(places), 0, 0)
  }

  function Context(places: seq<Place>, opts: Options, api: (string, string) -> nat -> SearchAnswer, env: Env, resolve: (string, real) -> string): Ctx {
    Ctx(|places|, opts.target, opts.maxPerQuery, api, (r, q) => NewPlace(r, q, opts, env, resolve))
  }

  /** `doc.places` as `main` writes it. */
  function Expand(places: seq<Place>, opts: Options, api: (string, string) -> nat -> SearchAnswer, env: Env, resolve: (string, real) -> string): seq<Place> {
    places + Queries(SearchQueries, Start(places), Context(places, opts, api, env, resolve)).added
  }

  // What discovery guarantees

  /** Records are keyed by the result's place id. */
  ghost predicate Keyed(c: Ctx) {
    forall r: SearchResult, q: Query :: c.make(r, q).id == r.placeId
  }

  /**
   * The added records: each built by `make` from a result of one of the
   * queries `all`, each with a non-empty id that `existing` holds and `base`
   * does not, and no two with one id.
   */
  ghost predicate Sound(st: Found, base: set<string>, all: seq<Query>, c: Ctx) {
    base <= st.existing
    && (forall k :: 0 <= k < |st.added| ==> st.added[k].id != "" && st.added[k].id !in base && st.added[k].id in st.existing)
    && (forall j, k :: 0 <= j < k < |st.added| ==> st.added[j].id != st.added[k].id)
    && (forall k :: 0 <= k < |st.added| ==> FromQuery(st.added[k], all, c))
  }

  /** `p` is the record `make` builds for some result of one of the queries `all`. */
  ghost predicate FromQuery(p: Place, all: seq<Query>, c: Ctx) {
    exists r: SearchResult, q: Query :: q in all && p == c.make(r, q)
  }

  lemma OfferSound(st: Found, r: SearchResult, q: Query, c: Ctx, base: set<string>, all: seq<Query>)
    requires Keyed(c) && q in all && Sound(st, base, all, c)
    ensures Sound(Offer(st, r, q, c), base, all, c)
  {
    if r.placeId != "" && r.placeId !in st.existing {
      var s := Offer(st, r, q, c);
      assert s.added[|st.added|] == c.make(r, q);
      assert FromQuery(s.added[|st.added|], all, c);
      forall k | 0 <= k < |st.added|
        ensures FromQuery(s.added[k], all, c)
      {
        assert s.added[k] == st.added[k];
      }
    }
  }

  /** The counters play no part in soundness. */
  lemma SoundCounters(st: Found, collected: nat, pages: nat, base: set<string>, all: seq<Query>, c: Ctx)
    requires Sound(st, base, all, c)
    ensures Sound(st.(collected := collected, pages := pages), base, all, c)
  {
    var s := st.(collected := collected, pages := pages);
    assert s.added == st.added;
  }

  lemma {:induction false} ResultsSound(rs: seq<SearchResult>, st: Found, q: Query, c: Ctx, base: set<string>, all: seq<Query>)
    requires Keyed(c) && q in all && Sound(st, base, all, c)
    ensures Sound(Results(rs, st, q, c), base, all, c)
    decreases |rs|
  {
    if rs != [] && !Full(st, c) {
      OfferSound(st, rs[0], q, c, base, all);
      ResultsSound(rs[1..], Offer(st, rs[0], q, c), q, c, base, all);
    }
  }

  lemma {:induction false} PagesSound(q: Query, page: nat, token: string, st: Found, c: Ctx, base: set<string>, all: seq<Query>)
    requires Keyed(c) && q in all && Sound(st, base, all, c)
    ensures Sound(Pages(q, page, token, st, c), base, all, c)
    decreases if page < 3 then 3 - page else 0
  {
    if page < 3 && !Full(st, c) {
      var json := Answered(c.api(q.query, token), token != "");
      var asked := st.(pages := st.pages + 1);
      SoundCounters(st, st.collected, st.pages + 1, base, all, c);
      if json.status == "OK" || json.status == "ZERO_RESULTS" {
        ResultsSound(json.results, asked, q, c, base, all);
        if json.nextPageToken != "" {
          PagesSound(q, page + 1, json.nextPageToken, Results(json.results, asked, q, c), c, base, all);
        }
      }
    }
  }

  lemma {:induction false} QueriesSound(qs: seq<Query>, st: Found, c: Ctx, base: set<string>, all: seq<Query>)
    requires Keyed(c) && (forall i :: 0 <= i < |qs| ==> qs[i] in all) && Sound(st, base, all, c)
    ensures Sound(Queries(qs, st, c), base, all, c)
    decreases |qs|
  {
    if qs != [] && !Reached(st, c) {
      SoundCounters(st, 0, st.pages, base, all, c);
      PagesSound(qs[0], 0, "", st.(collected := 0), c, base, all);
      QueriesSound(qs[1..], Pages(qs[0], 0, "", st.(collected := 0), c), c, base, all);
    }
  }

  /** The run stays within the target: a place is added only while the total is below it. */
  predicate Capped(st: Found, c: Ctx) {
    st.added == [] || (c.base + |st.added|) as real - 1.0 < c.target
  }

  /** The same for one query and `maxPerQuery`. */
  predicate QueryCapped(st: Found, c: Ctx) {
    st.collected == 0 || st.collected as real - 1.0 < c.maxPerQuery
  }

  /** Records are only appended, and `collectedForQuery` counts those appended. */
  predicate Grew(st: Found, s: Found) {
    st.added <= s.added && st.collected <= s.collected && |s.added| - |st.added| == s.collected - st.collected
  }

  lemma {:induction false} ResultsCount(rs: seq<SearchResult>, st: Found, q: Query, c: Ctx)
    requires Capped(st, c) && QueryCapped(st, c)
    ensures var s := Results(rs, st, q, c);
      Grew(st, s) && Capped(s, c) && QueryCapped(s, c) && s.pages == st.pages
    decreases |rs|
  {
    if rs != [] && !Full(st, c) {
      ResultsCount(rs[1..], Offer(st, rs[0], q, c), q, c);
    }
  }

  lemma {:induction false} PagesCount(q: Query, page: nat, token: string, st: Found, c: Ctx)
    requires page <= 3 && Capped(st, c) && QueryCapped(st, c)
    ensures var s := Pages(q, page, token, st, c);
      Grew(st, s) && Capped(s, c) && QueryCapped(s, c) && st.pages <= s.pages <= st.pages + (3 - page)
    decreases 3 - page
  {
    if page < 3 && !Full(st, c) {
      var json := Answered(c.api(q.query, token), token != "");
      var asked := st.(pages := st.pages + 1);
      if json.status == "OK" || json.status == "ZERO_RESULTS" {
        ResultsCount(json.results, asked, q, c);
        if json.nextPageToken != "" {
          PagesCount(q, page + 1, json.nextPageToken, Results(json.results, asked, q, c), c);
        }
      }
    }
  }

  /**
   * One query: the records it appends are `collectedForQuery` many, at most
   * `maxPerQuery` of them (counting the one that reaches it), and it asks
   * for at most three pages.
   */
  lemma QueryCap(q: Query, st: Found, c: Ctx)
    requires Capped(st, c)
    ensures var s := Pages(q, 0, "", st.(collected := 0), c);
      st.added <= s.added && |s.added| - |st.added| == s.collected
      && (s.collected == 0 || s.collected as real - 1.0 < c.maxPerQuery)
      && Capped(s, c) && st.pages <= s.pages <= st.pages + 3
  {
    PagesCount(q, 0, "", st.(collected := 0), c);
  }

  lemma {:induction false} QueriesCount(qs: seq<Query>, st: Found, c: Ctx)
    requires Capped(st, c)
    ensures var s := Queries(qs, st, c);
      st.added <= s.added && Capped(s, c) && s.pages <= st.pages + 3 * |qs|
    decreases |qs|
  {
    if qs != [] && !Reached(st, c) {
      QueryCap(qs[0], st, c);
      QueriesCount(qs[1..], Pages(qs[0], 0, "", st.(collected := 0), c), c);
    }
  }

  /** Once the target is reached no further query is made. */
  lemma ReachedStops(qs: seq<Query>, st: Found, c: Ctx)
    requires Reached(st, c)
    ensures Queries(qs, st, c) == st
  {
  }

  /** An answer other than `OK` or `ZERO_RESULTS` ends the query's paging with nothing added. */
  lemma BadStatusEndsPaging(q: Query, page: nat, token: string, st: Found, c: Ctx)
    requires page < 3 && !Full(st, c)
    requires Answered(c.api(q.query, token), token != "").status !in {"OK", "ZERO_RESULTS"}
    ensures Pages(q, page, token, st, c) == st.(pages := st.pages + 1)
  {
  }

  /** An answer without `next_page_token` is the query's last page. */
  lemma NoTokenEndsPaging(q: Query, page: nat, token: string, st: Found, c: Ctx)
    requires page < 3 && !Full(st, c)
    requires var json := Answered(c.api(q.query, token), token != "");
      json.status in {"OK", "ZERO_RESULTS"} && json.nextPageToken == ""
    ensures Pages(q, page, token, st, c) ==
      Results(Answered(c.api(q.query, token), token != "").results, st.(pages := st.pages + 1), q, c)
  {
  }

  lemma ContextKeyed(places: seq<Place>, opts: Options, api: (string, string) -> nat -> SearchAnswer, env: Env, resolve: (string, real) -> string)
    ensures Keyed(Context(places, opts, api, env, resolve))
  {
    var c := Context(places, opts, api, env, resolve);
    forall r: SearchResult, q: Query
      ensures c.make(r, q).id == r.placeId
    {
      assert c.make(r, q) == NewPlace(r, q, opts, env, resolve);
    }
  }

  /**
   * The written document: the base places unchanged, then the new ones. Each
   * new one is the record of a search result of one of the queries; its id
   * is non-empty, is not a known id of the base, and is not shared with
   * another new one; and a place is only added while the total is below the
   * target.
   */
  lemma ExpandFacts(places: seq<Place>, opts: Options, api: (string, string) -> nat -> SearchAnswer, env: Env, resolve: (string, real) -> string)
    ensures var out := Expand(places, opts, api, env, resolve);
      |places| <= |out| && out[..|places|] == places
      && (forall k :: |places| <= k < |out| ==> out[k].id != "" && out[k].id !in BaseIds(places))
      && (forall j, k :: |places| <= j < k < |out| ==> out[j].id != out[k].id)
      && (forall k :: |places| <= k < |out| ==> FromQuery(out[k], SearchQueries, Context(places, opts, api, env, resolve)))
      && (|out| == |places| || |out| as real - 1.0 < opts.target)
  {
    var c := Context(places, opts, api, env, resolve);
    var s := Queries(SearchQueries, Start(places), c);
    ContextKeyed(places, opts, api, env, resolve);
    QueriesSound(SearchQueries, Start(places), c, BaseIds(places), SearchQueries);
    QueriesCount(SearchQueries, Start(places), c);
    var out := places + s.added;
    assert Expand(places, opts, api, env, resolve) == out;
    assert forall k :: |places| <= k < |out| ==> out[k] == s.added[k - |places|];
  }

  /** A record of the run is the `NewPlace` of a result of one of the queries. */
  lemma MadeByNewPlace(p: Place, places: seq<Place>, opts: Options, api: (string, string) -> nat -> SearchAnswer, env: Env, resolve: (string, real) -> string)
    requires FromQuery(p, SearchQueries, Context(places, opts, api, env, resolve))
    ensures exists r: SearchResult, q: Query :: q in SearchQueries && p == NewPlace(r, q, opts, env, resolve)
  {
    var c := Context(places, opts, api, env, resolve);
    var r: SearchResult, q: Query :| q in SearchQueries && p == c.make(r, q);
    assert c.make(r, q) == NewPlace(r, q, opts, env, resolve);
  }

  /** Every new place lands in one of the site's seven categories. */
  lemma NewCategoriesKnown(places: seq<Place>, opts: Options, api: (string, string) -> nat -> SearchAnswer, env: Env, resolve: (string, real) -> string)
    ensures var out := Expand(places, opts, api, env, resolve);
      forall k :: |places| <= k < |out| ==> KnownCategory(out[k].category)
  {
    var out := Expand(places, opts, api, env, resolve);
    ExpandFacts(places, opts, api, env, resolve);
    forall k | |places| <= k < |out|
      ensures KnownCategory(out[k].category)
    {
      MadeByNewPlace(out[k], places, opts, api, env, resolve);
      var r: SearchResult, q: Query :| q in SearchQueries && out[k] == NewPlace(r, q, opts, env, resolve);
      CategoryKnown(r, q);
    }
  }

  // The loops of `main`

  lemma ResultsStep(rs: seq<SearchResult>, i: nat, st: Found, q: Query, c: Ctx)
    requires i < |rs| && !Full(st, c)
    ensures Results(rs[i..], st, q, c) == Results(rs[i + 1..], Offer(st, rs[i], q, c), q, c)
  {
    assert rs[i..][0] == rs[i] && rs[i..][1..] == rs[i + 1..];
  }

  /**
   * The results loop of one page; `c.make` builds the record of a new result
   * (`NewPlace` in `Discover`).
   */
  method ScanResults(rs: seq<SearchResult>, q: Query, st: Found, c: Ctx) returns (s: Found)
    ensures s == Results(rs, st, q, c)
  {
    var added, existing, collected := st.added, st.existing, st.collected;
    var i := 0;
    while i < |rs|
      invariant i <= |rs|
      invariant Results(rs[i..], Found(added, existing, collected, st.pages), q, c) == Results(rs, st, q, c)
    {
      if (c.base + |added|) as real >= c.target || collected as real >= c.maxPerQuery {
        break;
      }
      var r := rs[i];
      ghost var before := Found(added, existing, collected, st.pages);
      ResultsStep(rs, i, before, q, c);
      if r.placeId != "" && r.placeId !in existing {
        var place := c.make(r, q);
        added := added + [place];
        existing := existing + {r.placeId};
        collected := collected + 1;
      }
      assert Found(added, existing, collected, st.pages) == Offer(before, r, q, c);
      i := i + 1;
    }
    s := Found(added, existing, collected, st.pages);
  }

  /** The page loop of one query: at most three pages, each asked for with retries. */
  method SearchQuery(q: Query, st: Found, c: Ctx) returns (s: Found)
    ensures s == Pages(q, 0, "", st, c)
  {
    s := st;
    var token := "";
    var page := 0;
    while page < 3
      invariant page <= 3
      invariant Pages(q, page, token, s, c) == Pages(q, 0, "", st, c)
      decreases 3 - page
    {
      if (c.base + |s.added|) as real >= c.target || s.collected as real >= c.maxPerQuery {
        return;
      }
      var json, attempts, waits := TextSearchWithRetry(c.api(q.query, token), token != "");
      s := s.(pages := s.pages + 1);
      if json.status != "OK" && json.status != "ZERO_RESULTS" {
        return;
      }
      s := ScanResults(json.results, q, s, c);
      if json.nextPageToken == "" {
        return;
      }
      token := json.nextPageToken;
      page := page + 1;
    }
  }

  /**
   * The discovery part of `main`: `api(query, token)` answers the text-search
   * calls for a query and page token in order, `resolve` the photo redirects.
   * The result is `doc.places` as written.
   */
  method Discover(places: seq<Place>, opts: Options, api: (string, string) -> nat -> SearchAnswer, env: Env, resolve: (string, real) -> string)
    returns (out: seq<Place>)
    ensures out == Expand(places, opts, api, env, resolve)
  {
    var c := Context(places, opts, api, env, resolve);
    var st := Start(places);
    var qi := 0;
    while qi < |SearchQueries|
      invariant qi <= |SearchQueries|
      invariant Queries(SearchQueries[qi..], st, c) == Queries(SearchQueries, Start(places), c)
    {
      if (|places| + |st.added|) as real >= opts.target {
        break;
      }
      assert SearchQueries[qi..][0] == SearchQueries[qi] && SearchQueries[qi..][1..] == SearchQueries[qi + 1..];
      st := SearchQuery(SearchQueries[qi], st.(collected := 0), c);
      qi := qi + 1;
    }
    out := places + st.added;
  }

  /**
   * `priceLevel` is 0 when Google gives none, and `priceText` is `moneyText`
   * of it: no text for a missing level, and for Google's levels 1 to 4 a run
   * of dollar signs that reads back as the level.
   */
  lemma PriceTextOfLevel(r: SearchResult, q: Query, opts: Options, env: Env, resolve: (string, real) -> string, n: int)
    ensures r.priceLevel.None? ==> NewPlace(r, q, opts, env, resolve).priceLevel == 0.0
    ensures r.priceLevel.None? ==> NewPlace(r, q, opts, env, resolve).priceText.None?
    ensures 1 <= n <= 4 && r.priceLevel == Some(n as real) ==>
      var p := NewPlace(r, q, opts, env, resolve);
      p.priceText.Some? && DollarPriceLevel(PriceText(p.priceText.value)) == p.priceLevel
  {
    if 1 <= n <= 4 && r.priceLevel == Some(n as real) {
      MoneyTextRoundTrip(n);
    }
  }
}
