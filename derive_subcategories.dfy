/**
 * `scripts/derive-subcategories.js`: up to three sub-category labels per
 * place, found by keyword search in its normalized name, tags and categories
 * with one keyword table per category, and written only where a place has
 * none yet.
 */
module DeriveSubcategories {
  import opened Wrappers
  import opened Text
  import opened Collections
  import opened Places
  import opened Rules

  /** `norm(s)`: lower case, accents removed, surrounding white space cut. */
  function Norm(s: string): (r: string)
    ensures r == [] || (!IsSpace(r[0]) && !IsSpace(r[|r| - 1]))
  {
    Trim(Fold(s))
  }

  /** `hasAny(hay, words)`: some word occurs in `hay`. */
  predicate HasAny(hay: string, words: seq<string>) {
    ContainsAny(hay, words)
  }

  /** `uniq(arr)`: the non-empty values, each once, in order of first occurrence. */
  function Uniq(xs: seq<string>): (r: seq<string>)
    ensures NoDup(r)
    ensures forall y :: y in r <==> y in xs && y != ""
  {
    Distinct(Compact(xs))
  }

  /** The first value of a list that starts with a non-empty one is its first unique value. */
  lemma UniqHead(xs: seq<string>)
    requires xs != [] && xs[0] != ""
    ensures Uniq(xs) != [] && Uniq(xs)[0] == xs[0]
  {
    var c := Compact(xs);
    assert c == [xs[0]] + Compact(xs[1..]);
    assert Distinct(c) == AddAll(Insert([], c[0]), c[1..]);
    assert Insert([], c[0]) == [xs[0]];
  }

  /** `name | tags | categories`, each part normalized, as `derive` searches it. */
  function Blob(p: Place): string {
    Norm(p.name) + (" | " + Norm(Join(p.tags, " | ")) + " | " + Norm(Join(p.categories, " | ")))
  }

  /** The name is part of the text `derive` searches. */
  lemma NameInBlob(p: Place, w: string)
    requires Contains(Norm(p.name), w)
    ensures Contains(Blob(p), w)
  {
    ContainsInConcat(Norm(p.name), " | " + Norm(Join(p.tags, " | ")) + " | " + Norm(Join(p.categories, " | ")), w);
  }

  /** The keyword tests of one category, in order, and the label used when none matches. */
  datatype Table = Table(rules: seq<Rule>, fallback: string)

  /** Every label of a table is non-empty. */
  predicate Labelled(t: Table) {
    t.fallback != "" && forall i :: 0 <= i < |t.rules| ==> t.rules[i].outcome != ""
  }

  const Restaurants := Table([
    Rule(["pizza", "pizzaria"], "Pizza"),
    Rule(["burger", "hamburg", "hamburguer"], "Hamb\U{FA}rguer"),
    Rule(["japones", "japonesa", "sushi", "temaki", "ramen"], "Japonesa"),
    Rule(["churrasc", "rodizio", "steak", "grill"], "Churrasco"),
    Rule(["peixe", "frutos do mar", "camarao", "camar\U{E3}o"], "Frutos do mar"),
    Rule(["italian", "italiana", "pasta", "trattoria"], "Italiana"),
    Rule(["mexic", "taco", "burrito"], "Mexicana"),
    Rule(["arabe", "arabe", "kebab", "esfiha", "sfih"], "\U{C1}rabe"),
    Rule(["veg", "vegetar", "vegan"], "Vegetariano/Vegano"),
    Rule(["padaria", "panificadora"], "Padaria"),
    Rule(["confeitaria", "doceria", "bolo", "dessert", "sobremesa"], "Confeitaria")
  ], "Restaurante")

  const Nightlife := Table([
    Rule(["pub"], "Pub"),
    Rule(["cervej", "brew", "chopp"], "Cervejaria"),
    Rule(["bar"], "Bar"),
    Rule(["karaoke"], "Karaok\U{EA}"),
    Rule(["club", "balada", "boate"], "Balada/Clube"),
    Rule(["cocktail", "drink", "speakeasy"], "Coquetelaria")
  ], "Bar & Noite")

  const Cafes := Table([
    Rule(["cafeteria", "cafe", "caf\U{E9}", "coffee"], "Cafeteria"),
    Rule(["padaria", "panificadora"], "Padaria"),
    Rule(["confeitaria", "doceria", "bolo", "dessert"], "Confeitaria"),
    Rule(["brunch"], "Brunch")
  ], "Caf\U{E9}")

  const Nature := Table([
    Rule(["parque"], "Parque"),
    Rule(["bosque"], "Bosque"),
    Rule(["praca", "pra\U{E7}a"], "Pra\U{E7}a"),
    Rule(["trilha", "caminhada"], "Trilha/Caminhada")
  ], "Ao ar livre")

  const Culture := Table([
    Rule(["museu", "museum"], "Museu"),
    Rule(["teatro", "theater"], "Teatro"),
    Rule(["galeria", "arte", "art"], "Arte/Galeria"),
    Rule(["centro cultural", "cultural"], "Centro cultural")
  ], "Cultura")

  const Shopping := Table([
    Rule(["shopping", "mall"], "Shopping"),
    Rule(["mercado", "feira"], "Feira/Mercado")
  ], "Compras")

  const Attractions := Table([
    Rule(["zoo", "zoologico", "zool\U{F3}gico"], "Zool\U{F3}gico"),
    Rule(["mirante", "vista"], "Mirante"),
    Rule(["tour", "passeio"], "Passeio")
  ], "Atra\U{E7}\U{E3}o")

  /** The `if (cat === ...)` block that applies to a category, if any. */
  function TableFor(cat: string): Option<Table> {
    if cat == "restaurants" then Some(Restaurants)
    else if cat == "nightlife" then Some(Nightlife)
    else if cat == "cafes" then Some(Cafes)
    else if cat == "nature" then Some(Nature)
    else if cat == "culture" then Some(Culture)
    else if cat == "shopping" then Some(Shopping)
    else if cat == "attractions" then Some(Attractions)
    else None
  }

  lemma RestaurantsLabelled() ensures Labelled(Restaurants) {}
  lemma NightlifeLabelled() ensures Labelled(Nightlife) {}
  lemma SmallTablesLabelled() ensures Labelled(Cafes) && Labelled(Nature) && Labelled(Culture) && Labelled(Shopping) && Labelled(Attractions) {}

  /** Exactly the seven categories of the catalogue have a table, and every table is labelled. */
  lemma TablesLabelled(cat: string)
    ensures TableFor(cat).Some? <==> cat in ["restaurants", "nightlife", "cafes", "nature", "culture", "shopping", "attractions"]
    ensures TableFor(cat).Some? ==> Labelled(TableFor(cat).value)
  {
    RestaurantsLabelled();
    NightlifeLabelled();
    SmallTablesLabelled();
  }

  /**
   * The labels one table gives a text: those of the tests that match, in
   * table order, else the fallback; then `uniq(out).slice(0, 3)`.
   */
  function Labels(blob: string, t: Table): (r: seq<string>)
    ensures |r| <= 3 && NoDup(r)
    ensures r <= Uniq(if AllMatches(blob, t.rules) == [] then [t.fallback] else AllMatches(blob, t.rules))
    ensures |r| == var u := Uniq(if AllMatches(blob, t.rules) == [] then [t.fallback] else AllMatches(blob, t.rules));
      if |u| <= 3 then |u| else 3
  {
    var found := AllMatches(blob, t.rules);
    var out := if found == [] then [t.fallback] else found;
    TakeDistinct(Compact(out), 3)
  }

  /**
   * What a labelled table gives: at least one label; exactly the fallback
   * when no test matches; otherwise only labels of matching tests, the first
   * of them the label of the first test that matches.
   */
  lemma LabelsFacts(blob: string, t: Table)
    requires Labelled(t)
    ensures Labels(blob, t) != []
    ensures (forall i :: 0 <= i < |t.rules| ==> !Matches(blob, t.rules[i])) ==> Labels(blob, t) == [t.fallback]
    ensures forall l :: l in Labels(blob, t) && l != t.fallback ==>
      exists i :: 0 <= i < |t.rules| && Matches(blob, t.rules[i]) && t.rules[i].outcome == l
    ensures FirstMatch(blob, t.rules).Some? ==> Labels(blob, t)[0] == FirstMatch(blob, t.rules).value
  {
    var found := AllMatches(blob, t.rules);
    var out := if found == [] then [t.fallback] else found;
    AllMatchesStartsWithFirst(blob, t.rules);
    assert out[0] != "" by {
      if found != [] {
        assert found[0] in found;
      }
    }
    UniqHead(out);
    var r := Labels(blob, t);
    assert r[0] == Uniq(out)[0];
    if found == [] {
      assert Uniq(out) == [t.fallback] by {
        assert Compact(out) == [t.fallback];
        assert Distinct([t.fallback]) == AddAll(Insert([], t.fallback), []);
      }
    }
  }

  /** `derive(place)` */
  function Derive(p: Place): (r: seq<string>)
    ensures |r| <= 3 && NoDup(r)
  {
    var t := TableFor(p.category);
    if t.Some? then Labels(Blob(p), t.value) else TakeDistinct(Compact([]), 3)
  }

  /**
   * Each of the seven categories gets at least one label, and only its
   * fallback when no keyword of its table occurs; any other category none.
   */
  lemma DeriveByCategory(p: Place)
    ensures TableFor(p.category).None? ==> Derive(p) == []
    ensures TableFor(p.category).Some? ==> Derive(p) != []
    ensures TableFor(p.category).Some? && (forall i :: 0 <= i < |TableFor(p.category).value.rules| ==> !Matches(Blob(p), TableFor(p.category).value.rules[i]))
      ==> Derive(p) == [TableFor(p.category).value.fallback]
  {
    TablesLabelled(p.category);
    if TableFor(p.category).Some? {
      LabelsFacts(Blob(p), TableFor(p.category).value);
    }
  }

  /** When the first test matches, its label is the first one. */
  lemma FirstRuleFirst(blob: string, t: Table)
    requires Labelled(t) && t.rules != [] && Matches(blob, t.rules[0])
    ensures Labels(blob, t) != [] && Labels(blob, t)[0] == t.rules[0].outcome
  {
    assert FirstMatch(blob, t.rules) == Some(t.rules[0].outcome);
    LabelsFacts(blob, t);
  }

  /** A restaurant whose name, tags or categories mention pizza is labelled "Pizza" first. */
  lemma PizzaFirst(p: Place)
    requires p.category == "restaurants" && Contains(Blob(p), "pizza")
    ensures Derive(p) != [] && Derive(p)[0] == "Pizza"
  {
    var t := Restaurants;
    assert t.rules[0] == Rule(["pizza", "pizzaria"], "Pizza");
    assert Matches(Blob(p), t.rules[0]) by {
      assert t.rules[0].words[0] == "pizza";
    }
    RestaurantsLabelled();
    FirstRuleFirst(Blob(p), t);
  }

  // The run over places.json

  /*
   * The loop is stated for any labelling function `derive`; the script's is
   * `Derive`.
   */

  /** `Array.isArray(p.subcategories) ? p.subcategories : []` */
  function Existing(p: Place): seq<string> {
    p.subcategories.GetOr([])
  }

  /** `existing.length ? existing : derive(p)` */
  function Next(p: Place, derive: Place -> seq<string>): seq<string> {
    if Existing(p) != [] then Existing(p) else derive(p)
  }

  /** The JSON text of the list changes. */
  predicate Changes(p: Place, derive: Place -> seq<string>) {
    Next(p, derive) != Existing(p)
  }

  /** The place after its turn of the loop. */
  function Refreshed(p: Place, derive: Place -> seq<string>): Place {
    if Changes(p, derive) then p.(subcategories := Some(Next(p, derive))) else p
  }

  /**
   * A place changes exactly when it has no labels and derives some, and then
   * it holds the derived labels; a place that has labels keeps them.
   */
  lemma RefreshedFacts(p: Place, derive: Place -> seq<string>)
    ensures Changes(p, derive) <==> Existing(p) == [] && derive(p) != []
    ensures Changes(p, derive) <==> Refreshed(p, derive) != p
    ensures Changes(p, derive) ==> Refreshed(p, derive).subcategories == Some(derive(p))
    ensures Existing(p) != [] ==> Refreshed(p, derive) == p
    ensures Refreshed(p, derive).(subcategories := p.subcategories) == p
  {
  }

  /** With the script's labelling, a place of one of the seven categories without labels always changes. */
  lemma CataloguedPlaceGetsLabels(p: Place)
    requires Existing(p) == [] && TableFor(p.category).Some?
    ensures Changes(p, Derive) && Refreshed(p, Derive).subcategories == Some(Derive(p))
  {
    DeriveByCategory(p);
  }

  /** A refreshed place does not change again. */
  lemma RefreshedSettled(p: Place, derive: Place -> seq<string>)
    ensures !Changes(Refreshed(p, derive), derive) && Refreshed(Refreshed(p, derive), derive) == Refreshed(p, derive)
  {
    if Changes(p, derive) {
      assert Existing(Refreshed(p, derive)) == derive(p);
    }
  }

  function RefreshAll(ps: seq<Place>, derive: Place -> seq<string>): (qs: seq<Place>)
    ensures |qs| == |ps| && forall i :: 0 <= i < |ps| ==> qs[i] == Refreshed(ps[i], derive)
  {
    seq(|ps|, i requires 0 <= i < |ps| => Refreshed(ps[i], derive))
  }

  /** `changed`: how many places of `ps` change. */
  function CountChanged(ps: seq<Place>, derive: Place -> seq<string>): (n: nat)
    ensures n <= |ps|
  {
    if ps == [] then 0 else CountChanged(ps[..|ps| - 1], derive) + (if Changes(ps[|ps| - 1], derive) then 1 else 0)
  }

  lemma {:induction false} CountChangedZero(ps: seq<Place>, derive: Place -> seq<string>)
    requires forall i :: 0 <= i < |ps| ==> !Changes(ps[i], derive)
    ensures CountChanged(ps, derive) == 0
    decreases |ps|
  {
    if ps != [] {
      CountChangedZero(ps[..|ps| - 1], derive);
    }
  }

  /** `changed` is positive as soon as one place changes. */
  lemma {:induction false} CountChangedPositive(ps: seq<Place>, i: nat, derive: Place -> seq<string>)
    requires i < |ps| && Changes(ps[i], derive)
    ensures CountChanged(ps, derive) > 0
    decreases |ps|
  {
    if i < |ps| - 1 {
      CountChangedPositive(ps[..|ps| - 1], i, derive);
    }
  }

  /** Running the script a second time changes no place and counts nothing. */
  lemma SecondRunChangesNothing(ps: seq<Place>, derive: Place -> seq<string>)
    ensures RefreshAll(RefreshAll(ps, derive), derive) == RefreshAll(ps, derive)
    ensures CountChanged(RefreshAll(ps, derive), derive) == 0
  {
    var qs := RefreshAll(ps, derive);
    forall i | 0 <= i < |ps|
      ensures !Changes(qs[i], derive) && Refreshed(qs[i], derive) == qs[i]
    {
      RefreshedSettled(ps[i], derive);
    }
    CountChangedZero(qs, derive);
  }

  lemma CountChangedStep(ps: seq<Place>, i: nat, derive: Place -> seq<string>)
    requires i < |ps|
    ensures CountChanged(ps[..i + 1], derive) == CountChanged(ps[..i], derive) + (if Changes(ps[i], derive) then 1 else 0)
  {
    assert ps[..i + 1][..i] == ps[..i];
  }

  /** The loop of `main`: each place's list set in place where it changes, and the changes counted. */
  method DeriveAll(places: array<Place>, derive: Place -> seq<string>) returns (changed: nat)
    modifies places
    ensures places[..] == RefreshAll(old(places[..]), derive)
    ensures changed == CountChanged(old(places[..]), derive)
  {
    ghost var ps := places[..];
    changed := 0;
    var i := 0;
    while i < places.Length
      invariant i <= places.Length
      invariant forall j :: 0 <= j < i ==> places[j] == Refreshed(ps[j], derive)
      invariant forall j :: i <= j < places.Length ==> places[j] == ps[j]
      invariant changed == CountChanged(ps[..i], derive)
    {
      CountChangedStep(ps, i, derive);
      ghost var before := places[..];
      var p := places[i];
      var existing := p.subcategories.GetOr([]);
      var next := if existing != [] then existing else derive(p);
      assert p == ps[i] && existing == Existing(p) && next == Next(p, derive);
      if existing != next {
        places[i] := p.(subcategories := Some(next));
        changed := changed + 1;
      }
      assert places[i] == Refreshed(ps[i], derive);
      assert forall j :: 0 <= j < places.Length && j != i ==> places[j] == before[j];
      i := i + 1;
    }
    assert ps[..places.Length] == ps;
  }
}
