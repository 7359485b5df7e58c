/**
 * The front end's curation pass over the catalogue: per-place overrides
 * (looked up by id, then by sourceId), a description that is never empty,
 * the hotel score, and the set of recommended places — the curated ids when
 * there are any, else the 30 best-scored places rated 4.2 or more.
 */
module Curation {
  import opened Wrappers
  import opened Text
  import opened Collections
  import opened Sorting
  import opened Places

  /**
   * One entry of `overrides`: `""`, `[]` and `0` stand for a missing key,
   * since the code tests each of them for truthiness (or length).
   */
  datatype Override = Override(
    name: string,
    description: string,
    tags: seq<string>,
    highlights: seq<string>,
    notes: string,
    priority: real
  )

  /** The curation document; an absent list or map is empty. */
  datatype CurationDoc = CurationDoc(recommendedIds: seq<string>, overrides: map<string, Override>)

  /**
   * The floating-point steps of the score, left abstract: `Math.log10` and
   * `+x.toFixed(2)`.
   */
  datatype Numerics = Numerics(log10: real -> real, round2: real -> real)

  ghost predicate Monotone(f: real -> real) {
    forall x, y :: x <= y ==> f(x) <= f(y)
  }

  // ---------------------------------------------------------------------------
  // fallbackDescription
  // ---------------------------------------------------------------------------

  const RestaurantsText := "Restaurante bem avaliado em Goiânia, ótimo para almoço e jantar com fácil acesso saindo do Castro's Park Hotel."
  const NightlifeText := "Bar e vida noturna em Goiânia, ideal para curtir a noite com boa localização para hóspedes do hotel."
  const CafesText := "Café especial e ambiente agradável em Goiânia, uma ótima parada para pausa durante o dia."
  const NatureText := "Opção de lazer ao ar livre em Goiânia, recomendada para caminhar e aproveitar a cidade."
  const CultureText := "Ponto cultural em Goiânia para conhecer melhor a cena local e enriquecer seu roteiro."
  const ShoppingText := "Opção de compras em Goiânia com boa estrutura para passeios rápidos ou mais completos."
  const GenericText := "Lugar recomendado para conhecer Goiânia durante sua estadia no Castro's Park Hotel."

  /** The categories that have a sentence of their own. */
  const DescribedCategories: seq<string> := ["restaurants", "nightlife", "cafes", "nature", "culture", "shopping"]

  /** The sentence for a place without a description, chosen by its lower-cased category. */
  function FallbackDescription(p: Place): string {
    CategorySentence(Lower(p.category))
  }

  /** The sentence for a lower-cased category. */
  function CategorySentence(category: string): (r: string)
    ensures r != ""
    ensures r in [RestaurantsText, NightlifeText, CafesText, NatureText, CultureText, ShoppingText, GenericText]
  {
    if category == "restaurants" then RestaurantsText
    else if category == "nightlife" then NightlifeText
    else if category == "cafes" then CafesText
    else if category == "nature" then NatureText
    else if category == "culture" then CultureText
    else if category == "shopping" then ShoppingText
    else GenericText
  }

  /** Only the lower-cased category matters: two places whose categories differ in case get one sentence. */
  lemma FallbackIgnoresCase(p: Place, q: Place)
    requires Lower(p.category) == Lower(q.category)
    ensures FallbackDescription(p) == FallbackDescription(q)
  {
  }

  /**
   * The generic sentence is given exactly to the categories outside the six,
   * and each of the six has its own sentence, so the sentence tells the category.
   */
  lemma FallbackByCategory(p: Place, q: Place)
    ensures FallbackDescription(p) == GenericText <==> Lower(p.category) !in DescribedCategories
    ensures Lower(p.category) in DescribedCategories && FallbackDescription(p) == FallbackDescription(q)
            ==> Lower(p.category) == Lower(q.category)
  {
    SentenceTellsCategory(Lower(p.category), Lower(q.category));
  }

  lemma SentenceTellsCategory(c: string, d: string)
    ensures CategorySentence(c) == GenericText <==> c !in DescribedCategories
    ensures c in DescribedCategories && CategorySentence(c) == CategorySentence(d) ==> c == d
  {
    SentenceLength(c);
    SentenceLength(d);
    assert |GenericText| == 83;
  }

  /** Each sentence has its own length, so the length tells the category. */
  lemma SentenceLength(c: string)
    ensures |CategorySentence(c)| ==
      if c == "restaurants" then 111 else if c == "nightlife" then 100 else if c == "cafes" then 89
      else if c == "nature" then 87 else if c == "culture" then 85 else if c == "shopping" then 86 else 83
  {
    FallbackTextsDistinct();
  }

  /** The seven sentences differ from one another. */
  lemma FallbackTextsDistinct()
    ensures NoDup([RestaurantsText, NightlifeText, CafesText, NatureText, CultureText, ShoppingText, GenericText])
  {
    assert |RestaurantsText| == 111 && |NightlifeText| == 100 && |CafesText| == 89 && |NatureText| == 87;
    assert |CultureText| == 85 && |ShoppingText| == 86 && |GenericText| == 83;
  }

  // ---------------------------------------------------------------------------
  // scorePlace
  // ---------------------------------------------------------------------------

  /** The distance the score uses: a missing one counts as 8 km. */
  function ScoredDistance(p: Place): real {
    if p.distanceKm.Some? then p.distanceKm.value else 8.0
  }

  function Max0(x: real): real {
    if x < 0.0 then 0.0 else x
  }

  function Min20(x: real): real {
    if x < 20.0 then x else 20.0
  }

  /** The score before rounding: 25 per star, 20 per decade of reviews, minus 1.5 per km up to 20 km. */
  function RawScore(p: Place, num: Numerics): real {
    Max0(p.rating) * 25.0 + num.log10(Max0(p.reviewCount) + 1.0) * 20.0 - Min20(ScoredDistance(p)) * 1.5
  }

  function ScorePlace(p: Place, num: Numerics): real {
    num.round2(RawScore(p, num))
  }

  /** A negative rating or review count scores like zero. */
  lemma ScoreClampsNegatives(p: Place, num: Numerics)
    requires p.rating < 0.0 || p.reviewCount < 0.0
    ensures ScorePlace(p, num) == ScorePlace(p.(rating := Max0(p.rating), reviewCount := Max0(p.reviewCount)), num)
  {
  }

  /** A missing distance scores like 8 km, and every distance of 20 km or more scores like 20 km. */
  lemma ScoreDistance(p: Place, num: Numerics, d: real)
    ensures ScorePlace(p.(distanceKm := None), num) == ScorePlace(p.(distanceKm := Some(8.0)), num)
    ensures d >= 20.0 ==> ScorePlace(p.(distanceKm := Some(d)), num) == ScorePlace(p.(distanceKm := Some(20.0)), num)
  {
  }

  /**
   * With monotone arithmetic the score never drops for a better rating,
   * more reviews or a shorter distance.
   */
  lemma ScoreMonotone(p: Place, q: Place, num: Numerics)
    requires Monotone(num.log10) && Monotone(num.round2)
    requires p.rating <= q.rating && p.reviewCount <= q.reviewCount && ScoredDistance(q) <= ScoredDistance(p)
    ensures ScorePlace(p, num) <= ScorePlace(q, num)
  {
    assert num.log10(Max0(p.reviewCount) + 1.0) <= num.log10(Max0(q.reviewCount) + 1.0);
    assert RawScore(p, num) <= RawScore(q, num);
  }

  // ---------------------------------------------------------------------------
  // applyCuration, first map: overrides, description and score
  // ---------------------------------------------------------------------------

  function OverridesOf(doc: Option<CurationDoc>): map<string, Override> {
    if doc.Some? then doc.value.overrides else map[]
  }

  /** The override of a place: the entry under its id, else the one under its sourceId. */
  function OverrideFor(p: Place, doc: Option<CurationDoc>): Option<Override> {
    LookupOverride(OverridesOf(doc), p.id, p.sourceId)
  }

  /** The description before trimming: the override's, else the place's own. */
  function ChosenDescription(p: Place, ov: Option<Override>): string {
    if ov.Some? && ov.value.description != "" then ov.value.description else p.description
  }

  /** The trimmed chosen description, or the fallback sentence when that is empty. */
  function Description(p: Place, ov: Option<Override>): (d: string)
    ensures d != ""
    ensures Trim(ChosenDescription(p, ov)) != "" ==> d == Trim(ChosenDescription(p, ov))
    ensures Trim(ChosenDescription(p, ov)) == "" ==> d == FallbackDescription(p)
  {
    var own := Trim(ChosenDescription(p, ov));
    if own != "" then own else FallbackDescription(p)
  }

  function Priority(ov: Option<Override>): real {
    if ov.Some? then ov.value.priority else 0.0
  }

  /** A place after the first pass: overridden fields, description, score, and not yet recommended. */
  function Curated(p: Place, ov: Option<Override>, num: Numerics): Place {
    p.(
      name := if ov.Some? && ov.value.name != "" then ov.value.name else p.name,
      description := Description(p, ov),
      tags := if ov.Some? && |ov.value.tags| > 0 then ov.value.tags else p.tags,
      highlights := if ov.Some? && |ov.value.highlights| > 0 then Some(ov.value.highlights) else p.highlights,
      notes := if ov.Some? && ov.value.notes != "" then Some(ov.value.notes) else p.notes,
      hotelScore := ScorePlace(p, num) + Priority(ov),
      hotelRecommended := false
    )
  }

  /** `places.map(...)`, the first pass. */
  function Normalized(places: seq<Place>, doc: Option<CurationDoc>, num: Numerics): (r: seq<Place>)
    ensures |r| == |places|
    ensures forall i :: 0 <= i < |r| ==> r[i] == Curated(places[i], OverrideFor(places[i], doc), num)
    ensures forall i :: 0 <= i < |r| ==> r[i].id == places[i].id && r[i].sourceId == places[i].sourceId && r[i].rating == places[i].rating
  {
    seq(|places|, i requires 0 <= i < |places| => Curated(places[i], OverrideFor(places[i], doc), num))
  }

  // ---------------------------------------------------------------------------
  // applyCuration, the recommended set
  // ---------------------------------------------------------------------------

  /** The truthy curated ids. */
  function Manual(doc: Option<CurationDoc>): seq<string> {
    if doc.Some? then Compact(doc.value.recommendedIds) else []
  }

  /** A place rated 4.2 or more may be recommended automatically. */
  predicate Eligible(p: Place) {
    p.rating >= 4.2
  }

  /** Highest hotel score first. */
  function ByScore(p: Place): Key {
    Key(-p.hotelScore, 0.0, 0.0)
  }

  /** `filter(rating >= 4.2).sort(by hotelScore desc).slice(0, 30)` */
  function Top(normalized: seq<Place>): (r: seq<Place>)
    ensures |r| <= 30
  {
    TopBy(normalized, Eligible, ByScore, 30)
  }

  function IdsOf(ps: seq<Place>): (r: seq<string>)
    ensures |r| == |ps| && forall i :: 0 <= i < |ps| ==> r[i] == ps[i].id
  {
    seq(|ps|, i requires 0 <= i < |ps| => ps[i].id)
  }

  /** The contents of `recommendedSet`. */
  function RecommendedIds(normalized: seq<Place>, doc: Option<CurationDoc>): seq<string> {
    if |Manual(doc)| > 0 then Manual(doc) else IdsOf(Top(normalized))
  }

  /** `recommendedSet.has(p.id) || (p.sourceId ? recommendedSet.has(p.sourceId) : false)` */
  predicate Flagged(p: Place, ids: seq<string>) {
    p.id in ids || (p.sourceId != "" && p.sourceId in ids)
  }

  /** The second pass: each place is flagged by the set, nothing else changes. */
  function Flag(normalized: seq<Place>, ids: seq<string>): (r: seq<Place>)
    ensures |r| == |normalized|
    ensures forall i :: 0 <= i < |r| ==> r[i] == normalized[i].(hotelRecommended := Flagged(normalized[i], ids))
  {
    seq(|normalized|, i requires 0 <= i < |normalized| => normalized[i].(hotelRecommended := Flagged(normalized[i], ids)))
  }

  /** `applyCuration(places, curation)` */
  function ApplyCuration(places: seq<Place>, doc: Option<CurationDoc>, num: Numerics): (r: seq<Place>)
    ensures |r| == |places|
  {
    var normalized := Normalized(places, doc, num);
    Flag(normalized, RecommendedIds(normalized, doc))
  }

  // ---------------------------------------------------------------------------
  // What applyCuration promises
  // ---------------------------------------------------------------------------

  /**
   * The output is the input place by place, in order: id, sourceId and every
   * field outside name, description, tags, highlights, notes and the two
   * hotel fields are kept.
   */
  lemma CurationKeepsPlaces(places: seq<Place>, doc: Option<CurationDoc>, num: Numerics, i: int)
    requires 0 <= i < |places|
    ensures |ApplyCuration(places, doc, num)| == |places|
    ensures ApplyCuration(places, doc, num)[i].(name := places[i].name, description := places[i].description,
              tags := places[i].tags, highlights := places[i].highlights, notes := places[i].notes,
              hotelScore := places[i].hotelScore, hotelRecommended := places[i].hotelRecommended) == places[i]
  {
  }

  /**
   * Each overridden field: name and notes are replaced by a truthy override,
   * tags and highlights only by a non-empty list; the override is the one
   * under the id, else the one under the sourceId.
   */
  lemma CurationOverrides(places: seq<Place>, doc: Option<CurationDoc>, num: Numerics, i: int)
    requires 0 <= i < |places|
    ensures var p, r, ov := places[i], ApplyCuration(places, doc, num)[i], OverrideFor(places[i], doc);
            && (p.id in OverridesOf(doc) ==> ov == Some(OverridesOf(doc)[p.id]))
            && (p.id !in OverridesOf(doc) && p.sourceId in OverridesOf(doc) ==> ov == Some(OverridesOf(doc)[p.sourceId]))
            && (ov.None? <==> p.id !in OverridesOf(doc) && p.sourceId !in OverridesOf(doc))
            && r.name == (if ov.Some? && ov.value.name != "" then ov.value.name else p.name)
            && r.notes == (if ov.Some? && ov.value.notes != "" then Some(ov.value.notes) else p.notes)
            && r.tags == (if ov.Some? && ov.value.tags != [] then ov.value.tags else p.tags)
            && r.highlights == (if ov.Some? && ov.value.highlights != [] then Some(ov.value.highlights) else p.highlights)
  {
  }

  /**
   * No place leaves without a description: it is the trimmed override or own
   * description, or the category's sentence when that trims to nothing.
   */
  lemma CurationDescription(places: seq<Place>, doc: Option<CurationDoc>, num: Numerics, i: int)
    requires 0 <= i < |places|
    ensures var r := ApplyCuration(places, doc, num)[i];
            && r.description != ""
            && r.description == Description(places[i], OverrideFor(places[i], doc))
  {
  }

  /** An override description of white space only hides the place's own description. */
  lemma BlankOverrideHidesDescription(p: Place, ov: Override)
    requires ov.description != "" && Trim(ov.description) == ""
    ensures Description(p, Some(ov)) == FallbackDescription(p)
  {
  }

  /** The hotel score is the score of the original place plus the override's priority (0 without one). */
  lemma CurationScore(places: seq<Place>, doc: Option<CurationDoc>, num: Numerics, i: int)
    requires 0 <= i < |places|
    ensures var ov := OverrideFor(places[i], doc);
            ApplyCuration(places, doc, num)[i].hotelScore
            == ScorePlace(places[i], num) + (if ov.Some? then ov.value.priority else 0.0)
  {
  }

  /**
   * With curated ids, a place is recommended exactly when its id or its
   * sourceId is one of them, whatever the scores.
   */
  lemma ManualRecommendation(places: seq<Place>, doc: Option<CurationDoc>, num: Numerics, i: int)
    requires 0 <= i < |places|
    requires Manual(doc) != []
    ensures ApplyCuration(places, doc, num)[i].hotelRecommended
            <==> places[i].id in Manual(doc) || (places[i].sourceId != "" && places[i].sourceId in Manual(doc))
  {
  }

  /** The curated ids are the truthy ones of the document; there are none without a document. */
  lemma ManualIds(doc: Option<CurationDoc>, id: string)
    ensures id in Manual(doc) <==> doc.Some? && id in doc.value.recommendedIds && id != ""
  {
  }

  /** A place of the candidate list that did not make the top 30 scores no higher than any that did. */
  lemma TopIsBest(normalized: seq<Place>, c: Place, t: Place)
    requires c in normalized && Eligible(c) && c !in Top(normalized)
    requires t in Top(normalized)
    ensures t.hotelScore >= c.hotelScore
  {
    TopByBest(normalized, Eligible, ByScore, 30, c, t);
  }

  /** With at most 30 candidates, every candidate makes the list. */
  lemma TopTakesAllFew(normalized: seq<Place>, c: Place)
    requires |Filter(normalized, Eligible)| <= 30
    requires c in normalized && Eligible(c)
    ensures c in Top(normalized)
  {
    TopByAll(normalized, Eligible, ByScore, 30, c);
  }

  /**
   * Without curated ids the set is the ids of the top list, so it holds at
   * most 30 ids, and a place is recommended exactly when its id or sourceId
   * is one of them.
   */
  lemma AutomaticRecommendation(places: seq<Place>, doc: Option<CurationDoc>, num: Numerics, i: int)
    requires 0 <= i < |places|
    requires Manual(doc) == []
    ensures var ids := RecommendedIds(Normalized(places, doc, num), doc);
            && ids == IdsOf(Top(Normalized(places, doc, num)))
            && |ids| <= 30
            && (ApplyCuration(places, doc, num)[i].hotelRecommended <==> Flagged(places[i], ids))
  {
  }

  /** Every id of the top list is the id of a place rated 4.2 or more that made the list. */
  lemma TopIdsEligible(normalized: seq<Place>, x: string)
    requires x in IdsOf(Top(normalized))
    ensures exists j :: 0 <= j < |normalized| && IdOfEligible(normalized[j], x) && normalized[j] in Top(normalized)
  {
    var ids := IdsOf(Top(normalized));
    var k :| 0 <= k < |ids| && ids[k] == x;
    var t := Top(normalized)[k];
    assert t in normalized;
    var j :| 0 <= j < |normalized| && normalized[j] == t;
    assert IdOfEligible(normalized[j], x);
  }

  /** The same through a pass that keeps ids and ratings. */
  lemma SameIdsEligible(places: seq<Place>, normalized: seq<Place>, x: string)
    requires |normalized| == |places|
    requires forall j :: 0 <= j < |places| ==> normalized[j].id == places[j].id && normalized[j].rating == places[j].rating
    requires x in IdsOf(Top(normalized))
    ensures exists j :: 0 <= j < |places| && IdOfEligible(places[j], x)
  {
    TopIdsEligible(normalized, x);
    var j :| 0 <= j < |normalized| && IdOfEligible(normalized[j], x) && normalized[j] in Top(normalized);
    assert IdOfEligible(places[j], x);
  }

  /** So each automatically chosen id is that of an input place rated 4.2 or more. */
  lemma AutomaticIdsEligible(places: seq<Place>, doc: Option<CurationDoc>, num: Numerics, x: string)
    requires x in IdsOf(Top(Normalized(places, doc, num)))
    ensures exists j :: 0 <= j < |places| && IdOfEligible(places[j], x)
  {
    SameIdsEligible(places, Normalized(places, doc, num), x);
  }

  /** `x` is the id of `p`, and `p` is rated 4.2 or more. */
  predicate IdOfEligible(p: Place, x: string) {
    p.id == x && Eligible(p)
  }
}
