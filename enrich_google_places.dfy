/**
 * `scripts/enrich-google-places.js`: the stored places are completed with
 * Google Places details. Command-line flags choose how many places and which
 * ones, each details call is retried on quota errors, and each answer is
 * merged field by field into the place it was asked for.
 */
module EnrichGooglePlaces {
  import opened Wrappers
  import opened Text
  import opened Js
  import opened Collections
  import opened Places
  import opened Rules
  import opened CommonRules
  import opened KeyedDedupe

  // Command line

  /** `out.limit`: `Infinity` or a number. */
  datatype Limit = Unlimited | AtMost(n: real)

  datatype Options = Options(
    limit: Limit,
    sleepMs: real,
    onlyMissing: bool,
    forceIfEnrichedMissing: bool,
    photos: real,
    includeEditorial: bool
  )

  const Defaults := Options(Unlimited, 120.0, true, false, 0.0, false)

  /** The flags that read the argument after them. */
  predicate ValueFlag(a: string) {
    a == "--limit" || a == "--sleep" || a == "--photos"
  }

  /** The flags that stand alone. */
  predicate BareFlag(a: string) {
    a == "--all" || a == "--force-missing" || a == "--editorial" || a == "--no-editorial"
  }

  /**
   * One turn of `parseArgs`' loop at flag `args[i]`: the options after it, and
   * the index of the next flag (a flag with a value skips that value).
   */
  function ApplyFlag(args: seq<string>, i: nat, out: Options): (r: (Options, nat))
    requires i < |args|
    ensures r.1 == i + 1 || r.1 == i + 2
    ensures r.1 == i + 2 <==> ValueFlag(args[i])
    ensures !ValueFlag(args[i]) && !BareFlag(args[i]) ==> r.0 == out
    ensures args[i] == "--limit" ==> r.0 == out.(limit := r.0.limit)
    ensures args[i] == "--limit" ==> (r.0.limit == Unlimited <==> !NumTruthy(FlagValue(args, i)))
    ensures args[i] == "--limit" && NumTruthy(FlagValue(args, i)) ==> r.0.limit == AtMost(FlagValue(args, i).value)
    ensures args[i] == "--sleep" && NumTruthy(FlagValue(args, i)) ==> r.0 == out.(sleepMs := FlagValue(args, i).value)
    ensures args[i] == "--sleep" && !NumTruthy(FlagValue(args, i)) ==> r.0 == out.(sleepMs := 120.0)
    ensures args[i] == "--photos" ==> r.0 == out.(photos := r.0.photos) && r.0.photos >= 0.0
    ensures args[i] == "--photos" && OrZero(FlagValue(args, i)) > 0.0 ==> r.0.photos == OrZero(FlagValue(args, i))
    ensures args[i] == "--photos" && OrZero(FlagValue(args, i)) <= 0.0 ==> r.0.photos == 0.0
    ensures args[i] == "--all" ==> r.0 == out.(onlyMissing := false)
    ensures args[i] == "--force-missing" ==> r.0 == out.(forceIfEnrichedMissing := true)
    ensures args[i] == "--editorial" ==> r.0 == out.(includeEditorial := true)
    ensures args[i] == "--no-editorial" ==> r.0 == out.(includeEditorial := false)
  {
    var a := args[i];
    var v := FlagValue(args, i);
    if a == "--limit" then (out.(limit := if NumTruthy(v) then AtMost(v.value) else Unlimited), i + 2)
    else if a == "--sleep" then (out.(sleepMs := if NumTruthy(v) then v.value else 120.0), i + 2)
    else if a == "--photos" then (out.(photos := if OrZero(v) > 0.0 then OrZero(v) else 0.0), i + 2)
    else if a == "--all" then (out.(onlyMissing := false), i + 1)
    else if a == "--force-missing" then (out.(forceIfEnrichedMissing := true), i + 1)
    else if a == "--editorial" then (out.(includeEditorial := true), i + 1)
    else if a == "--no-editorial" then (out.(includeEditorial := false), i + 1)
    else (out, i + 1)
  }

  /** The loop of `parseArgs` from index `i`, with `out` as it stands. */
  function ScanArgs(args: seq<string>, i: nat, out: Options): Options
    decreases |args| - i
  {
    if i >= |args| then out
    else ScanArgs(args, ApplyFlag(args, i, out).1, ApplyFlag(args, i, out).0)
  }

  /** The defaults of a full rebuild: photos (6 unless asked for) and editorial summaries. */
  function FullRebuild(out: Options): (r: Options)
    ensures out.onlyMissing ==> r == out
    ensures !out.onlyMissing ==> r.includeEditorial && (out.photos == 0.0 ==> r.photos == 6.0)
    ensures !out.onlyMissing && out.photos != 0.0 ==> r.photos == out.photos
    ensures r.(photos := out.photos, includeEditorial := out.includeEditorial) == out
  {
    if out.onlyMissing then out
    else out.(photos := if out.photos == 0.0 then 6.0 else out.photos, includeEditorial := true)
  }

  /** `parseArgs()` */
  function ParseArgs(args: seq<string>): Options {
    FullRebuild(ScanArgs(args, 0, Defaults))
  }

  /** `parseArgs()` as the script runs it: one pass over the arguments. */
  method ParseArgsLoop(args: seq<string>) returns (out: Options)
    ensures out == ParseArgs(args)
  {
    out := Defaults;
    var i := 0;
    while i < |args|
      invariant ScanArgs(args, i, out) == ScanArgs(args, 0, Defaults)
      decreases |args| - i
    {
      var step := ApplyFlag(args, i, out);
      out, i := step.0, step.1;
    }
    out := FullRebuild(out);
  }

  /** With no arguments: no limit, 120 ms pauses, missing-only mode, no photos and no editorial. */
  lemma NoArgsDefaults()
    ensures ParseArgs([]) == Options(Unlimited, 120.0, true, false, 0.0, false)
  {
  }

  lemma {:induction false} ScanKeepsLimit(args: seq<string>, i: nat, out: Options)
    requires forall j :: i <= j < |args| ==> args[j] != "--limit"
    ensures ScanArgs(args, i, out).limit == out.limit
    decreases |args| - i
  {
    if i < |args| {
      ScanKeepsLimit(args, ApplyFlag(args, i, out).1, ApplyFlag(args, i, out).0);
    }
  }

  /**
   * A leading `--limit` that no later `--limit` overrides: its value `0`,
   * empty or not a number means no limit, any other number is the limit.
   */
  lemma LimitZeroIsUnlimited(v: string, rest: seq<string>)
    requires "--limit" !in rest
    ensures ParseArgs(["--limit", v] + rest).limit == Unlimited <==> !NumTruthy(ParseNumber(Either(v, "0")))
    ensures NumTruthy(ParseNumber(Either(v, "0"))) ==> ParseArgs(["--limit", v] + rest).limit == AtMost(ParseNumber(Either(v, "0")).value)
  {
    var args := ["--limit", v] + rest;
    assert args[0] == "--limit" && args[1] == v;
    var step := ApplyFlag(args, 0, Defaults);
    assert step.1 == 2;
    assert FlagValue(args, 0) == ParseNumber(Either(v, "0"));
    forall j | 2 <= j < |args|
      ensures args[j] != "--limit"
    {
      assert args[j] == rest[j - 2];
    }
    ScanKeepsLimit(args, 2, step.0);
    assert ScanArgs(args, 0, Defaults) == ScanArgs(args, 2, step.0);
    assert ParseArgs(args).limit == ScanArgs(args, 2, step.0).limit;
  }

  lemma {:induction false} ScanKeepsPhotosNonNegative(args: seq<string>, i: nat, out: Options)
    requires out.photos >= 0.0
    ensures ScanArgs(args, i, out).photos >= 0.0
    decreases |args| - i
  {
    if i < |args| {
      ScanKeepsPhotosNonNegative(args, ApplyFlag(args, i, out).1, ApplyFlag(args, i, out).0);
    }
  }

  /** The photo count is never negative, and a full rebuild always fetches photos and editorial summaries. */
  lemma PhotosClamped(args: seq<string>)
    ensures ParseArgs(args).photos >= 0.0
    ensures !ParseArgs(args).onlyMissing ==> ParseArgs(args).photos > 0.0 && ParseArgs(args).includeEditorial
  {
    ScanKeepsPhotosNonNegative(args, 0, Defaults);
  }

  // Retried details calls

  /** What `included fields` add to a details answer; `None` where the field is absent (or not finite). */
  datatype PlaceResult = PlaceResult(
    name: Option<string>,
    formattedAddress: Option<string>,
    lat: Option<real>,
    lng: Option<real>,
    formattedPhoneNumber: Option<string>,
    website: Option<string>,
    url: Option<string>,
    rating: Option<real>,
    userRatingsTotal: Option<real>,
    priceLevel: Option<real>,
    weekdayText: Option<seq<string>>,
    openNow: Option<bool>,
    types: seq<string>,
    /** `photos[i]?.photo_reference`, `None` when `photos` is not an array. */
    photoRefs: Option<seq<Option<string>>>,
    /** `editorial_summary?.overview` */
    editorial: string
  )

  datatype Details = Details(status: string, result: Option<PlaceResult>, errorMessage: Option<string>)

  /** The statuses that are retried after a pause. */
  predicate Retryable(status: string) {
    status == "OVER_QUERY_LIMIT" || status == "UNKNOWN_ERROR"
  }

  const DefaultMaxAttempts := 5
  const InitialBackoffMs := 1200
  const MaxBackoffMs := 15000

  /** The pause before the call after the `k`-th retried one: 1200 ms, doubling, at most 15000 ms. */
  function Backoff(k: nat): (ms: int)
    ensures InitialBackoffMs <= ms <= MaxBackoffMs
  {
    if k == 0 then InitialBackoffMs
    else if 2 * Backoff(k - 1) < MaxBackoffMs then 2 * Backoff(k - 1) else MaxBackoffMs
  }

  /** The pauses are 1200 · 2^k, cut at 15000. */
  lemma {:induction false} BackoffDoubles(k: nat)
    ensures Backoff(k) == if InitialBackoffMs * Pow2(k) < MaxBackoffMs then InitialBackoffMs * Pow2(k) else MaxBackoffMs
  {
    if k > 0 {
      BackoffDoubles(k - 1);
    }
  }

  /**
   * How many calls `getPlaceDetailsWithRetry` makes, counting from call `k`:
   * it stops at the first status that is not retried, or at the last allowed
   * attempt.
   */
  function CallsFrom(responses: nat -> Details, maxAttempts: int, k: nat): (n: nat)
    ensures n > k
    ensures maxAttempts >= k + 1 ==> n <= maxAttempts
    ensures maxAttempts < k + 1 ==> n == k + 1
    decreases if maxAttempts > k then maxAttempts - k else 0
  {
    if !Retryable(responses(k).status) || k + 1 >= maxAttempts then k + 1
    else CallsFrom(responses, maxAttempts, k + 1)
  }

  function Calls(responses: nat -> Details, maxAttempts: int): (n: nat)
    ensures n >= 1
  {
    CallsFrom(responses, maxAttempts, 0)
  }

  lemma {:induction false} CallsFromShape(responses: nat -> Details, maxAttempts: int, k: nat)
    requires forall j :: 0 <= j < k ==> Retryable(responses(j).status)
    ensures var n := CallsFrom(responses, maxAttempts, k);
      (forall j :: 0 <= j < n - 1 ==> Retryable(responses(j).status))
      && (!Retryable(responses(n - 1).status) || n >= maxAttempts)
    decreases if maxAttempts > k then maxAttempts - k else 0
  {
    if Retryable(responses(k).status) && k + 1 < maxAttempts {
      CallsFromShape(responses, maxAttempts, k + 1);
    }
  }

  /**
   * The calls made: between one and `maxAttempts` of them; every one but the
   * last answered a retried status, and the last either did not or used up
   * the attempts.
   */
  lemma CallsShape(responses: nat -> Details, maxAttempts: int)
    ensures var n := Calls(responses, maxAttempts);
      1 <= n && (maxAttempts >= 1 ==> n <= maxAttempts)
      && (forall j :: 0 <= j < n - 1 ==> Retryable(responses(j).status))
      && (!Retryable(responses(n - 1).status) || n >= maxAttempts)
  {
    CallsFromShape(responses, maxAttempts, 0);
  }

  /**
   * `getPlaceDetailsWithRetry`: `responses(k)` is what the `k`-th details
   * call answers; `waits` are the pauses taken, in order.
   */
  method DetailsWithRetry(responses: nat -> Details, maxAttempts: int) returns (json: Details, attempts: nat, waits: seq<int>)
    ensures attempts == Calls(responses, maxAttempts) && json == responses(attempts - 1)
    ensures |waits| == attempts - 1 && forall k :: 0 <= k < |waits| ==> waits[k] == Backoff(k)
  {
    attempts := 0;
    var backoffMs := InitialBackoffMs;
    waits := [];
    while true
      invariant attempts == |waits| && backoffMs == Backoff(attempts)
      invariant forall k :: 0 <= k < |waits| ==> waits[k] == Backoff(k)
      invariant CallsFrom(responses, maxAttempts, attempts) == Calls(responses, maxAttempts)
      decreases if maxAttempts > attempts then maxAttempts - attempts else 0
    {
      attempts := attempts + 1;
      json := responses(attempts - 1);
      if Retryable(json.status) {
        if attempts >= maxAttempts {
          return;
        }
        waits := waits + [backoffMs];
        backoffMs := if backoffMs * 2 < MaxBackoffMs then backoffMs * 2 else MaxBackoffMs;
        continue;
      }
      return;
    }
  }

  // Selection

  /** `place.sourceId || place.id`: the id the details are asked for. */
  function DetailsId(p: Place): string {
    Either(p.sourceId, p.id)
  }

  /** Some of phone, website, description or hours is missing. */
  predicate MissingRichness(p: Place) {
    !Truthy(p.phone) || !Truthy(p.website) || p.description == "" || p.hours.None? || p.hours == Some([])
  }

  /** The tests a place must pass, besides the limit, to be processed. */
  predicate Wanted(p: Place, opts: Options) {
    DetailsId(p) != ""
    && !(opts.onlyMissing && Truthy(p.enrichedAt) && !opts.forceIfEnrichedMissing)
    && !(opts.onlyMissing && !MissingRichness(p))
  }

  /** `processed >= limit` */
  predicate LimitReached(processed: nat, limit: Limit) {
    limit.AtMost? && processed as real >= limit.n
  }

  // Merge

  /** The tag table of `normalizeTags` in this script. */
  const TagRules: seq<Rule> := [
    Rule(["restaurant", "meal_takeaway", "meal_delivery", "food"], "Restaurante"),
    Rule(["cafe"], "Caf\U{E9}"),
    Rule(["bar", "night_club"], "Bar"),
    Rule(["tourist_attraction"], "Passeio"),
    Rule(["park"], "Parque"),
    Rule(["museum"], "Museu"),
    Rule(["art_gallery"], "Galeria"),
    Rule(["theater"], "Teatro"),
    Rule(["stadium"], "Est\U{E1}dio"),
    Rule(["shopping_mall"], "Shopping"),
    Rule(["store"], "Compras")
  ]

  /**
   * The photo URLs resolved for the first `photos` references that are
   * present; `resolve` answers `""` where the redirect gave no location.
   */
  function PhotoUrls(r: PlaceResult, photos: real, resolve: string -> string): (urls: seq<string>)
    ensures forall u :: u in urls ==> u != ""
    ensures photos >= 0.0 ==> |urls| <= photos.Floor
  {
    var refs := Take(CompactOpt(r.photoRefs.GetOr([])), if photos >= 0.0 then photos.Floor as nat else 0);
    Compact(seq(|refs|, i requires 0 <= i < |refs| => resolve(refs[i])))
  }

  /** The URLs a merge may use: none unless photos were asked for and the answer lists some. */
  function MergeUrls(r: PlaceResult, opts: Options, resolve: string -> string): (urls: seq<string>)
    ensures forall u :: u in urls ==> u != ""
    ensures opts.photos <= 0.0 || r.photoRefs.None? ==> urls == []
  {
    if opts.photos > 0.0 && r.photoRefs.Some? && r.photoRefs.value != [] then PhotoUrls(r, opts.photos, resolve) else []
  }

  /** Name, address, coordinates and contacts: a value in the answer wins, an absent one keeps the stored value. */
  function MergeContact(p: Place, r: PlaceResult): (q: Place)
    ensures r.name.Some? ==> q.name == r.name.value
    ensures r.name.None? ==> q.name == p.name
    ensures r.formattedAddress.Some? ==> q.address == r.formattedAddress.value
    ensures r.formattedAddress.None? ==> q.address == p.address
    ensures r.lat.Some? ==> q.latitude == r.lat
    ensures r.lat.None? ==> q.latitude == p.latitude
    ensures r.lng.Some? ==> q.longitude == r.lng
    ensures r.lng.None? ==> q.longitude == p.longitude
    ensures r.formattedPhoneNumber.Some? ==> q.phone == r.formattedPhoneNumber
    ensures r.formattedPhoneNumber.None? ==> q.phone == p.phone
    ensures r.website.Some? ==> q.website == r.website
    ensures r.website.None? ==> q.website == p.website
    ensures r.url.Some? ==> q.sourceUrl == r.url
    ensures r.url.None? ==> q.sourceUrl == p.sourceUrl
    ensures q == p.(name := q.name, address := q.address, latitude := q.latitude, longitude := q.longitude,
                    phone := q.phone, website := q.website, sourceUrl := q.sourceUrl)
  {
    p.(
      name := r.name.GetOr(p.name),
      address := r.formattedAddress.GetOr(p.address),
      latitude := if r.lat.Some? then r.lat else p.latitude,
      longitude := if r.lng.Some? then r.lng else p.longitude,
      phone := if r.formattedPhoneNumber.Some? then r.formattedPhoneNumber else p.phone,
      website := if r.website.Some? then r.website else p.website,
      sourceUrl := if r.url.Some? then r.url else p.sourceUrl
    )
  }

  /**
   * Rating, review count and price: a rating or count of `0` in the answer
   * never replaces the stored one; a price level replaces both the level and
   * its `$` text.
   */
  function MergeScores(p: Place, r: PlaceResult): (q: Place)
    ensures NumTruthy(r.rating) ==> q.rating == r.rating.value
    ensures !NumTruthy(r.rating) ==> q.rating == p.rating
    ensures NumTruthy(r.userRatingsTotal) ==> q.reviewCount == r.userRatingsTotal.value
    ensures !NumTruthy(r.userRatingsTotal) ==> q.reviewCount == p.reviewCount
    ensures r.priceLevel.Some? ==> q.priceLevel == r.priceLevel.value && q.priceText == MoneyText(r.priceLevel.value)
    ensures r.priceLevel.None? ==> q.priceLevel == p.priceLevel && q.priceText == p.priceText
    ensures q == p.(rating := q.rating, reviewCount := q.reviewCount, priceLevel := q.priceLevel, priceText := q.priceText)
  {
    p.(
      rating := if NumTruthy(r.rating) then r.rating.value else p.rating,
      reviewCount := if NumTruthy(r.userRatingsTotal) then r.userRatingsTotal.value else p.reviewCount,
      priceLevel := if r.priceLevel.Some? then r.priceLevel.value else p.priceLevel,
      priceText := if r.priceLevel.Some? then MoneyText(r.priceLevel.value) else p.priceText
    )
  }

  /** Opening hours (an empty list included) and the open-now text. */
  function MergeHours(p: Place, r: PlaceResult): (q: Place)
    ensures r.weekdayText.Some? ==> q.hours == r.weekdayText
    ensures r.weekdayText.None? ==> q.hours == p.hours
    ensures r.openNow == Some(true) ==> q.openStatusText == Some("Aberto agora")
    ensures r.openNow == Some(false) ==> q.openStatusText == Some("Fechado agora")
    ensures r.openNow.None? ==> q.openStatusText == p.openStatusText
    ensures q == p.(hours := q.hours, openStatusText := q.openStatusText)
  {
    p.(
      hours := if r.weekdayText.Some? then r.weekdayText else p.hours,
      openStatusText := if r.openNow.Some? then Some(if r.openNow.value then "Aberto agora" else "Fechado agora") else p.openStatusText
    )
  }

  /** Category and tags follow the answer's types whenever these say anything. */
  function MergeTaxonomy(p: Place, r: PlaceResult): (q: Place)
    ensures MapCategoryFromTypes(r.types).Some? ==> q.category == MapCategoryFromTypes(r.types).value
    ensures MapCategoryFromTypes(r.types).None? ==> q.category == p.category
    ensures TypeTags(r.types, TagRules) != [] ==> q.tags == TypeTags(r.types, TagRules)
    ensures TypeTags(r.types, TagRules) == [] ==> q.tags == p.tags
    ensures q == p.(category := q.category, tags := q.tags)
  {
    var newTags := TypeTags(r.types, TagRules);
    p.(
      category := MapCategoryFromTypes(r.types).GetOr(p.category),
      tags := if newTags != [] then newTags else p.tags
    )
  }

  /** Resolved photos fill an empty image and an empty gallery, and never replace existing ones. */
  function MergeMedia(p: Place, urls: seq<string>): (q: Place)
    ensures urls == [] ==> q == p
    ensures Truthy(p.image) ==> q.image == p.image
    ensures urls != [] && !Truthy(p.image) ==> q.image == Some(urls[0])
    ensures p.gallery.Some? && p.gallery.value != [] ==> q.gallery == p.gallery
    ensures urls != [] && (p.gallery.None? || p.gallery.value == []) ==> q.gallery == Some(urls)
    ensures q == p.(image := q.image, gallery := q.gallery)
  {
    p.(
      image := if urls != [] && !Truthy(p.image) then Some(urls[0]) else p.image,
      gallery := if urls != [] && (p.gallery.None? || p.gallery.value == []) then Some(urls) else p.gallery
    )
  }

  /** The editorial summary replaces a description that is missing or, once trimmed, shorter than 20 UTF-16 code units. */
  predicate TakesEditorial(p: Place, r: PlaceResult, opts: Options) {
    opts.includeEditorial && r.editorial != "" && (p.description == "" || Utf16Length(Trim(p.description)) < 20)
  }

  function MergeEditorial(p: Place, r: PlaceResult, opts: Options): (q: Place)
    ensures TakesEditorial(p, r, opts) ==> q.description == r.editorial
    ensures !TakesEditorial(p, r, opts) ==> q == p
    ensures q == p.(description := q.description)
  {
    if TakesEditorial(p, r, opts) then p.(description := r.editorial) else p
  }

  /** The merge of a successful details answer into the place, block by block, stamped with the run's time. */
  function MergeDetails(p: Place, r: PlaceResult, opts: Options, resolve: string -> string, nowIso: string): (q: Place)
    ensures q.id == p.id && q.sourceId == p.sourceId && q.enrichedAt == Some(nowIso)
  {
    var contact := MergeContact(p, r);
    var scores := MergeScores(contact, r);
    var hours := MergeHours(scores, r);
    var taxonomy := MergeTaxonomy(hours, r);
    var media := MergeMedia(taxonomy, MergeUrls(r, opts, resolve));
    MergeEditorial(media, r, opts).(enrichedAt := Some(nowIso))
  }

  lemma NoTypesNoCategory()
    ensures MapCategoryFromTypes([]).None?
  {
    assert Join([], "|") == "";
    TypeRulesAvoidSeparator();
    EmptyMatchesNothing(TypeRules);
  }

  lemma NoTypesNoTags()
    ensures TypeTags([], TagRules) == []
  {
    assert Join([], "|") == "";
    TagRulesNonEmpty();
    EmptyMatchesNothing(TagRules);
    NoMatchNoLabels("", TagRules);
  }

  lemma NoTypesNoTaxonomy(p: Place, r: PlaceResult)
    requires r.types == []
    ensures MergeTaxonomy(p, r) == p
  {
    NoTypesNoCategory();
    NoTypesNoTags();
  }

  lemma TagRulesNonEmpty()
    ensures forall i, k :: 0 <= i < |TagRules| && 0 <= k < |TagRules[i].words| ==> TagRules[i].words[k] != []
  {
  }

  /** An answer that carries nothing only stamps the place. */
  lemma EmptyAnswerOnlyStamps(p: Place, opts: Options, resolve: string -> string, nowIso: string)
    ensures MergeDetails(p, PlaceResult(None, None, None, None, None, None, None, None, None, None, None, None, [], None, ""), opts, resolve, nowIso)
      == p.(enrichedAt := Some(nowIso))
  {
    var r := PlaceResult(None, None, None, None, None, None, None, None, None, None, None, None, [], None, "");
    assert MergeContact(p, r) == p;
    assert MergeScores(p, r) == p;
    assert MergeHours(p, r) == p;
    NoTypesNoTaxonomy(p, r);
    assert MergeUrls(r, opts, resolve) == [];
  }

  // Each block finds a merged place as it would leave it.

  lemma ContactSettled(p: Place, r: PlaceResult, opts: Options, resolve: string -> string, nowIso: string)
    ensures MergeContact(MergeDetails(p, r, opts, resolve, nowIso), r) == MergeDetails(p, r, opts, resolve, nowIso)
  {
  }

  lemma ScoresSettled(p: Place, r: PlaceResult, opts: Options, resolve: string -> string, nowIso: string)
    ensures MergeScores(MergeDetails(p, r, opts, resolve, nowIso), r) == MergeDetails(p, r, opts, resolve, nowIso)
  {
  }

  lemma HoursSettled(p: Place, r: PlaceResult, opts: Options, resolve: string -> string, nowIso: string)
    ensures MergeHours(MergeDetails(p, r, opts, resolve, nowIso), r) == MergeDetails(p, r, opts, resolve, nowIso)
  {
  }

  lemma TaxonomySettled(p: Place, r: PlaceResult, opts: Options, resolve: string -> string, nowIso: string)
    ensures MergeTaxonomy(MergeDetails(p, r, opts, resolve, nowIso), r) == MergeDetails(p, r, opts, resolve, nowIso)
  {
  }

  lemma MediaSettled(p: Place, r: PlaceResult, opts: Options, resolve: string -> string, nowIso: string)
    ensures MergeMedia(MergeDetails(p, r, opts, resolve, nowIso), MergeUrls(r, opts, resolve)) == MergeDetails(p, r, opts, resolve, nowIso)
  {
    var urls := MergeUrls(r, opts, resolve);
    if urls != [] {
      assert urls[0] in urls;
    }
  }

  lemma EditorialSettled(p: Place, r: PlaceResult, opts: Options, resolve: string -> string, nowIso: string)
    ensures MergeEditorial(MergeDetails(p, r, opts, resolve, nowIso), r, opts) == MergeDetails(p, r, opts, resolve, nowIso)
  {
  }

  /** Merging the same answer a second time changes nothing more. */
  lemma MergeIdempotent(p: Place, r: PlaceResult, opts: Options, resolve: string -> string, nowIso: string)
    ensures MergeDetails(MergeDetails(p, r, opts, resolve, nowIso), r, opts, resolve, nowIso) == MergeDetails(p, r, opts, resolve, nowIso)
  {
    ContactSettled(p, r, opts, resolve, nowIso);
    ScoresSettled(p, r, opts, resolve, nowIso);
    HoursSettled(p, r, opts, resolve, nowIso);
    TaxonomySettled(p, r, opts, resolve, nowIso);
    MediaSettled(p, r, opts, resolve, nowIso);
    EditorialSettled(p, r, opts, resolve, nowIso);
  }

  /** Photos are only fetched when asked for: with `photos` 0 the image and gallery stay as they were. */
  lemma NoPhotosKeepMedia(p: Place, r: PlaceResult, opts: Options, resolve: string -> string, nowIso: string)
    requires opts.photos <= 0.0
    ensures MergeDetails(p, r, opts, resolve, nowIso).image == p.image
    ensures MergeDetails(p, r, opts, resolve, nowIso).gallery == p.gallery
  {
  }

  // The main loop

  datatype Failure = Failure(placeId: string, name: string, status: string, errorMessage: Option<string>)

  /** The counters and the failure list of `main`. */
  datatype Run = Run(processed: nat, updated: nat, failures: seq<Failure>)

  /** The details the script receives for a place id, after the retries. */
  function Answer(api: string -> nat -> Details, id: string): Details {
    api(id)(Calls(api(id), DefaultMaxAttempts) - 1)
  }

  /** The answer is a failure: a status other than `OK`, or no result. */
  predicate Failed(d: Details) {
    d.status != "OK" || d.result.None?
  }

  /**
   * One turn of the loop over the places: a reached limit or an unwanted
   * place leaves everything as it is; otherwise the place is processed and
   * either merged and counted as updated, or recorded as a failure.
   */
  function Visit(run: Run, p: Place, opts: Options, api: string -> nat -> Details, resolve: string -> string, nowIso: string): (v: (Run, Place))
    ensures LimitReached(run.processed, opts.limit) || !Wanted(p, opts) ==> v == (run, p)
    ensures !LimitReached(run.processed, opts.limit) && Wanted(p, opts) ==> v.0.processed == run.processed + 1
    ensures !LimitReached(run.processed, opts.limit) && Wanted(p, opts) && Failed(Answer(api, DetailsId(p))) ==>
      v.0.updated == run.updated && v.1 == p
      && v.0.failures == run.failures + [Failure(DetailsId(p), p.name, Either(Answer(api, DetailsId(p)).status, "UNKNOWN"), Answer(api, DetailsId(p)).errorMessage)]
    ensures !LimitReached(run.processed, opts.limit) && Wanted(p, opts) && !Failed(Answer(api, DetailsId(p))) ==>
      v.0.updated == run.updated + 1 && v.0.failures == run.failures
      && v.1 == MergeDetails(p, Answer(api, DetailsId(p)).result.value, opts, resolve, nowIso)
  {
    if LimitReached(run.processed, opts.limit) || !Wanted(p, opts) then (run, p)
    else
      var d := Answer(api, DetailsId(p));
      if Failed(d) then
        (run.(processed := run.processed + 1, failures := run.failures + [Failure(DetailsId(p), p.name, Either(d.status, "UNKNOWN"), d.errorMessage)]), p)
      else
        (run.(processed := run.processed + 1, updated := run.updated + 1), MergeDetails(p, d.result.value, opts, resolve, nowIso))
  }

  /** The body of the loop with the run's settings fixed. */
  function Turn(opts: Options, api: string -> nat -> Details, resolve: string -> string, nowIso: string): (Run, Place) -> (Run, Place) {
    (run, p) => Visit(run, p, opts, api, resolve, nowIso)
  }

  /** The counters and places after a loop with body `step` has visited `places`. */
  function Scan(places: seq<Place>, step: (Run, Place) -> (Run, Place)): (r: (Run, seq<Place>))
    ensures |r.1| == |places|
    decreases |places|
  {
    if places == [] then (Run(0, 0, []), [])
    else
      var before := Scan(places[..|places| - 1], step);
      var visited := step(before.0, places[|places| - 1]);
      (visited.0, before.1 + [visited.1])
  }

  /** The counters and places after `main`'s loop went through `places`. */
  function EnrichAll(places: seq<Place>, opts: Options, api: string -> nat -> Details, resolve: string -> string, nowIso: string): (r: (Run, seq<Place>))
    ensures |r.1| == |places|
  {
    Scan(places, Turn(opts, api, resolve, nowIso))
  }

  lemma ScanSnoc(places: seq<Place>, i: nat, step: (Run, Place) -> (Run, Place))
    requires i < |places|
    ensures Scan(places[..i + 1], step) ==
      (step(Scan(places[..i], step).0, places[i]).0, Scan(places[..i], step).1 + [step(Scan(places[..i], step).0, places[i]).1])
  {
    assert places[..i + 1][..i] == places[..i];
  }

  /** A turn processes at most one place, never past the limit, and counts it as updated or failed. */
  ghost predicate Counts(run: Run, after: Run, limit: Limit) {
    after == run
    || (!LimitReached(run.processed, limit) && after.processed == run.processed + 1
        && ((after.updated == run.updated + 1 && after.failures == run.failures)
            || (after.updated == run.updated && |after.failures| == |run.failures| + 1)))
  }

  /** What every turn of the loop promises, stated about any loop body. */
  ghost predicate SoundStep(step: (Run, Place) -> (Run, Place), opts: Options) {
    (forall run: Run, p: Place :: Counts(run, step(run, p).0, opts.limit))
    && (forall run: Run, p: Place :: step(run, p).1.id == p.id && step(run, p).1.sourceId == p.sourceId)
    && (forall run: Run, p: Place :: !Wanted(p, opts) ==> step(run, p).1 == p)
    && Idle(step, opts.limit)
  }

  /** Once the limit is reached a turn changes nothing. */
  ghost predicate Idle(step: (Run, Place) -> (Run, Place), limit: Limit) {
    forall run: Run, p: Place :: LimitReached(run.processed, limit) ==> step(run, p) == (run, p)
  }

  lemma TurnSound(opts: Options, api: string -> nat -> Details, resolve: string -> string, nowIso: string)
    ensures SoundStep(Turn(opts, api, resolve, nowIso), opts)
  {
  }

  lemma {:induction false} ScanCounts(places: seq<Place>, step: (Run, Place) -> (Run, Place), opts: Options)
    requires SoundStep(step, opts)
    ensures var run := Scan(places, step).0;
      run.processed == run.updated + |run.failures| && run.processed <= |places|
      && (opts.limit.AtMost? && run.processed > 0 ==> (run.processed - 1) as real < opts.limit.n)
    decreases |places|
  {
    if places != [] {
      ScanCounts(places[..|places| - 1], step, opts);
      var before := Scan(places[..|places| - 1], step).0;
      assert Counts(before, step(before, places[|places| - 1]).0, opts.limit);
    }
  }

  lemma {:induction false} ScanKeeps(places: seq<Place>, step: (Run, Place) -> (Run, Place), opts: Options)
    requires SoundStep(step, opts)
    ensures forall i :: 0 <= i < |places| ==>
      Scan(places, step).1[i].id == places[i].id && Scan(places, step).1[i].sourceId == places[i].sourceId
      && (!Wanted(places[i], opts) ==> Scan(places, step).1[i] == places[i])
    decreases |places|
  {
    if places != [] {
      var n := |places| - 1;
      ScanKeeps(places[..n], step, opts);
      var before := Scan(places[..n], step);
      assert Scan(places, step).1 == before.1 + [step(before.0, places[n]).1];
    }
  }

  lemma {:induction false} ScanAfterLimit(places: seq<Place>, i: nat, j: nat, step: (Run, Place) -> (Run, Place), opts: Options)
    requires i <= j <= |places| && Idle(step, opts.limit)
    requires LimitReached(Scan(places[..i], step).0.processed, opts.limit)
    ensures Scan(places[..j], step).0 == Scan(places[..i], step).0
    ensures Scan(places[..j], step).1 == Scan(places[..i], step).1 + places[i..j]
    decreases j - i
  {
    if j > i {
      ScanAfterLimit(places, i, j - 1, step, opts);
      ScanSnoc(places, j - 1, step);
      var before := Scan(places[..j - 1], step);
      assert step(before.0, places[j - 1]) == (before.0, places[j - 1]);
      var start := Scan(places[..i], step).1;
      assert places[i..j] == places[i..j - 1] + [places[j - 1]];
      assert start + places[i..j] == (start + places[i..j - 1]) + [places[j - 1]];
    }
  }

  /**
   * Every processed place was either updated or recorded as a failure, no
   * more places are processed than the limit allows, and none more than
   * there are.
   */
  lemma EnrichAllCounts(places: seq<Place>, opts: Options, api: string -> nat -> Details, resolve: string -> string, nowIso: string)
    ensures var run := EnrichAll(places, opts, api, resolve, nowIso).0;
      run.processed == run.updated + |run.failures| && run.processed <= |places|
      && (opts.limit.AtMost? && run.processed > 0 ==> (run.processed - 1) as real < opts.limit.n)
  {
    TurnSound(opts, api, resolve, nowIso);
    ScanCounts(places, Turn(opts, api, resolve, nowIso), opts);
  }

  /** Every place comes back in its position with its ids; a place that is not wanted comes back as it was. */
  lemma EnrichAllKeeps(places: seq<Place>, opts: Options, api: string -> nat -> Details, resolve: string -> string, nowIso: string)
    ensures forall i :: 0 <= i < |places| ==>
      EnrichAll(places, opts, api, resolve, nowIso).1[i].id == places[i].id && EnrichAll(places, opts, api, resolve, nowIso).1[i].sourceId == places[i].sourceId
      && (!Wanted(places[i], opts) ==> EnrichAll(places, opts, api, resolve, nowIso).1[i] == places[i])
  {
    TurnSound(opts, api, resolve, nowIso);
    ScanKeeps(places, Turn(opts, api, resolve, nowIso), opts);
  }

  /** Once the limit is reached the rest of the places are passed over. */
  lemma AfterLimit(places: seq<Place>, i: nat, opts: Options, api: string -> nat -> Details, resolve: string -> string, nowIso: string)
    requires i <= |places|
    requires LimitReached(EnrichAll(places[..i], opts, api, resolve, nowIso).0.processed, opts.limit)
    ensures EnrichAll(places, opts, api, resolve, nowIso) == (EnrichAll(places[..i], opts, api, resolve, nowIso).0, EnrichAll(places[..i], opts, api, resolve, nowIso).1 + places[i..])
  {
    TurnSound(opts, api, resolve, nowIso);
    ScanAfterLimit(places, i, |places|, Turn(opts, api, resolve, nowIso), opts);
    assert places[..|places|] == places;
  }

  /**
   * `main`'s loop: `api(id)(k)` is the `k`-th details answer for `id`,
   * `resolve` the photo redirect, `nowIso` the timestamp of the run.
   */
  method Enrich(places: seq<Place>, opts: Options, api: string -> nat -> Details, resolve: string -> string, nowIso: string) returns (out: seq<Place>, run: Run)
    ensures run == EnrichAll(places, opts, api, resolve, nowIso).0
    ensures out == EnrichAll(places, opts, api, resolve, nowIso).1
  {
    out := places;
    run := Run(0, 0, []);
    var i := 0;
    while i < |places|
      invariant 0 <= i <= |places|
      invariant run == EnrichAll(places[..i], opts, api, resolve, nowIso).0
      invariant out == EnrichAll(places[..i], opts, api, resolve, nowIso).1 + places[i..]
    {
      if LimitReached(run.processed, opts.limit) {
        AfterLimit(places, i, opts, api, resolve, nowIso);
        return;
      }
      ghost var before := run;
      var place := places[i];
      assert out[..i] == EnrichAll(places[..i], opts, api, resolve, nowIso).1 && out[i] == place && out[i + 1..] == places[i + 1..];
      if Wanted(place, opts) {
        var placeId := DetailsId(place);
        run := run.(processed := run.processed + 1);
        var details, attempts, waits := DetailsWithRetry(api(placeId), DefaultMaxAttempts);
        assert details == Answer(api, placeId);
        if details.status != "OK" || details.result.None? {
          run := run.(failures := run.failures + [Failure(placeId, place.name, Either(details.status, "UNKNOWN"), details.errorMessage)]);
        } else {
          run := run.(updated := run.updated + 1);
          out := out[i := MergeDetails(place, details.result.value, opts, resolve, nowIso)];
        }
      }
      EnrichStep(places, i, before, out, run, opts, api, resolve, nowIso);
      i := i + 1;
    }
    assert places[..|places|] == places && places[|places|..] == [];
    assert out == EnrichAll(places, opts, api, resolve, nowIso).1 + [];
  }

  /** The three outcomes of `Enrich`'s loop body are the three cases of a turn. */
  lemma VisitCases(before: Run, p: Place, run: Run, q: Place, opts: Options, api: string -> nat -> Details, resolve: string -> string, nowIso: string)
    requires !LimitReached(before.processed, opts.limit)
    requires !Wanted(p, opts) ==> run == before && q == p
    requires Wanted(p, opts) && Failed(Answer(api, DetailsId(p))) ==>
      q == p && run == before.(processed := before.processed + 1,
        failures := before.failures + [Failure(DetailsId(p), p.name, Either(Answer(api, DetailsId(p)).status, "UNKNOWN"), Answer(api, DetailsId(p)).errorMessage)])
    requires Wanted(p, opts) && !Failed(Answer(api, DetailsId(p))) ==>
      q == MergeDetails(p, Answer(api, DetailsId(p)).result.value, opts, resolve, nowIso)
      && run == before.(processed := before.processed + 1, updated := before.updated + 1)
    ensures Visit(before, p, opts, api, resolve, nowIso) == (run, q)
  {
  }

  /** A turn of the fold extends the places done by one. */
  lemma TurnStep(places: seq<Place>, i: nat, before: Run, out: seq<Place>, run: Run, opts: Options, api: string -> nat -> Details, resolve: string -> string, nowIso: string)
    requires i < |places| && |out| == |places|
    requires before == EnrichAll(places[..i], opts, api, resolve, nowIso).0
    requires out[..i] == EnrichAll(places[..i], opts, api, resolve, nowIso).1 && out[i + 1..] == places[i + 1..]
    requires Visit(before, places[i], opts, api, resolve, nowIso) == (run, out[i])
    ensures run == EnrichAll(places[..i + 1], opts, api, resolve, nowIso).0
    ensures out == EnrichAll(places[..i + 1], opts, api, resolve, nowIso).1 + places[i + 1..]
  {
    ScanSnoc(places, i, Turn(opts, api, resolve, nowIso));
    assert out == out[..i] + [out[i]] + out[i + 1..];
  }

  /** One pass of `Enrich`'s loop body, in each of its three outcomes, is one turn of the fold. */
  lemma EnrichStep(places: seq<Place>, i: nat, before: Run, out: seq<Place>, run: Run, opts: Options, api: string -> nat -> Details, resolve: string -> string, nowIso: string)
    requires i < |places| && |out| == |places|
    requires before == EnrichAll(places[..i], opts, api, resolve, nowIso).0 && !LimitReached(before.processed, opts.limit)
    requires out[..i] == EnrichAll(places[..i], opts, api, resolve, nowIso).1 && out[i + 1..] == places[i + 1..]
    requires !Wanted(places[i], opts) ==> run == before && out[i] == places[i]
    requires Wanted(places[i], opts) && Failed(Answer(api, DetailsId(places[i]))) ==>
      out[i] == places[i] && run == before.(processed := before.processed + 1,
        failures := before.failures + [Failure(DetailsId(places[i]), places[i].name, Either(Answer(api, DetailsId(places[i])).status, "UNKNOWN"), Answer(api, DetailsId(places[i])).errorMessage)])
    requires Wanted(places[i], opts) && !Failed(Answer(api, DetailsId(places[i]))) ==>
      out[i] == MergeDetails(places[i], Answer(api, DetailsId(places[i])).result.value, opts, resolve, nowIso)
      && run == before.(processed := before.processed + 1, updated := before.updated + 1)
    ensures run == EnrichAll(places[..i + 1], opts, api, resolve, nowIso).0
    ensures out == EnrichAll(places[..i + 1], opts, api, resolve, nowIso).1 + places[i + 1..]
  {
    VisitCases(before, places[i], run, out[i], opts, api, resolve, nowIso);
    TurnStep(places, i, before, out, run, opts, api, resolve, nowIso);
  }

  // Report

  /** `acc[status] = (acc[status] || 0) + 1` on the insertion-ordered object of counts. */
  function Bump(counts: seq<(string, nat)>, status: string): (r: seq<(string, nat)>)
    ensures KeyedDedupe.IndexOf(counts, status).None? ==> r == counts + [(status, 1)]
    ensures KeyedDedupe.IndexOf(counts, status).Some? ==>
      var i := KeyedDedupe.IndexOf(counts, status).value; r == counts[i := (status, counts[i].1 + 1)]
  {
    match KeyedDedupe.IndexOf(counts, status)
    case None => counts + [(status, 1)]
    case Some(i) => counts[i := (status, counts[i].1 + 1)]
  }

  /** Counting a status adds it to the statuses seen, as an object key is added: last, and once. */
  lemma BumpKeys(counts: seq<(string, nat)>, status: string)
    ensures KeysOf(Bump(counts, status)) == Insert(KeysOf(counts), status)
  {
    match KeyedDedupe.IndexOf(counts, status)
    case None =>
      assert KeysOf(counts + [(status, 1)]) == KeysOf(counts) + [status];
    case Some(i) =>
      assert status in KeysOf(counts) by { assert KeysOf(counts)[i] == status; }
      assert KeysOf(counts[i := (status, counts[i].1 + 1)]) == KeysOf(counts);
  }

  /** `summary.statuses`: the failures counted per status, statuses in order of first failure. */
  function StatusCounts(failures: seq<Failure>): seq<(string, nat)>
    decreases |failures|
  {
    if failures == [] then [] else Bump(StatusCounts(failures[..|failures| - 1]), failures[|failures| - 1].status)
  }

  function StatusesOf(failures: seq<Failure>): (r: seq<string>)
    ensures |r| == |failures| && forall i :: 0 <= i < |failures| ==> r[i] == failures[i].status
  {
    seq(|failures|, i requires 0 <= i < |failures| => failures[i].status)
  }

  /** How many failures have `status`. */
  function CountOf(failures: seq<Failure>, status: string): nat
    decreases |failures|
  {
    if failures == [] then 0
    else CountOf(failures[..|failures| - 1], status) + (if failures[|failures| - 1].status == status then 1 else 0)
  }

  lemma {:induction false} CountOfAbsent(failures: seq<Failure>, status: string)
    requires status !in StatusesOf(failures)
    ensures CountOf(failures, status) == 0
    decreases |failures|
  {
    if failures != [] {
      var n := |failures| - 1;
      assert StatusesOf(failures)[n] == failures[n].status;
      assert forall i :: 0 <= i < n ==> StatusesOf(failures[..n])[i] == StatusesOf(failures)[i];
      CountOfAbsent(failures[..n], status);
    }
  }

  /** The statuses of the report are the distinct failure statuses, in order of first appearance. */
  lemma {:induction false} CountsKeys(failures: seq<Failure>)
    ensures KeysOf(StatusCounts(failures)) == Distinct(StatusesOf(failures))
    decreases |failures|
  {
    if failures != [] {
      var n := |failures| - 1;
      CountsKeys(failures[..n]);
      var s := failures[n].status;
      assert StatusesOf(failures) == StatusesOf(failures[..n]) + [s];
      BumpKeys(StatusCounts(failures[..n]), s);
      AddAllConcat([], StatusesOf(failures[..n]), [s]);
      assert AddAll(Distinct(StatusesOf(failures[..n])), [s]) == Insert(Distinct(StatusesOf(failures[..n])), s);
    }
  }

  /** Each status of the report is counted exactly as often as it occurs among the failures. */
  lemma {:induction false} CountsExact(failures: seq<Failure>)
    ensures forall j :: 0 <= j < |StatusCounts(failures)| ==> StatusCounts(failures)[j].1 == CountOf(failures, StatusCounts(failures)[j].0)
    decreases |failures|
  {
    if failures != [] {
      var n := |failures| - 1;
      var before := failures[..n];
      CountsExact(before);
      CountsKeys(before);
      BumpKeys(StatusCounts(before), failures[n].status);
      var counts := StatusCounts(before);
      var s := failures[n].status;
      var after := StatusCounts(failures);
      assert after == Bump(counts, s);
      match KeyedDedupe.IndexOf(counts, s)
      case None =>
        assert s !in StatusesOf(before) by {
          assert s !in KeysOf(counts);
        }
        CountOfAbsent(before, s);
      case Some(i) =>
        forall j | 0 <= j < |after| ensures after[j].1 == CountOf(failures, after[j].0) {
          if j != i {
            assert KeysOf(counts)[j] != KeysOf(counts)[i];
          }
        }
    }
  }

  /** The per-status counts of the report add up to the number of failures. */
  function Total(counts: seq<(string, nat)>): nat
    decreases |counts|
  {
    if counts == [] then 0 else counts[0].1 + Total(counts[1..])
  }

  lemma {:induction false} TotalSnoc(counts: seq<(string, nat)>, e: (string, nat))
    ensures Total(counts + [e]) == Total(counts) + e.1
    decreases |counts|
  {
    if counts != [] {
      assert (counts + [e])[1..] == counts[1..] + [e];
      TotalSnoc(counts[1..], e);
    }
  }

  lemma {:induction false} TotalUpdate(counts: seq<(string, nat)>, i: nat, e: (string, nat))
    requires i < |counts|
    ensures Total(counts[i := e]) == Total(counts) - counts[i].1 + e.1
    decreases |counts|
  {
    if i > 0 {
      assert counts[i := e][1..] == counts[1..][i - 1 := e];
      TotalUpdate(counts[1..], i - 1, e);
    }
  }

  lemma {:induction false} CountsAddUp(failures: seq<Failure>)
    ensures Total(StatusCounts(failures)) == |failures|
    decreases |failures|
  {
    if failures != [] {
      var n := |failures| - 1;
      CountsAddUp(failures[..n]);
      var counts := StatusCounts(failures[..n]);
      var s := failures[n].status;
      assert StatusCounts(failures) == Bump(counts, s);
      var found := KeyedDedupe.IndexOf(counts, s);
      if found.None? {
        TotalSnoc(counts, (s, 1));
      } else {
        TotalUpdate(counts, found.value, (s, counts[found.value].1 + 1));
      }
    }
  }

  /** The failures written to the report: the first 200. */
  function ReportedFailures(failures: seq<Failure>): (r: seq<Failure>)
    ensures |r| <= 200 && r <= failures
    ensures |failures| <= 200 ==> r == failures
  {
    Take(failures, 200)
  }
}
