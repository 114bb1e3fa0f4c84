/**
 * Normalisation of Open Food Facts payloads (src/lib/openfoodfacts.js): the
 * summaries built from a text-search response and the full product record
 * built from a by-code response. Absent JSON fields are `None`; JavaScript's
 * `a || b` treats a present empty string like an absent one.
 */
module CatalogRecords {
  import opened Wrappers
  import opened Text

  /** A grade as the catalog client emits it: absent, or a non-empty string with no lower-case letter. */
  predicate IsEmittedGrade(g: Option<string>) {
    g.None? || (g.value != "" && HasNoLower(g.value))
  }

  /** `grade?.toUpperCase() || null`. */
  function Grade(g: Option<string>): (r: Option<string>)
    ensures IsEmittedGrade(r)
    ensures r.Some? <==> Truthy(g)
    ensures r.Some? ==> r.value == ToUpper(g.value)
  {
    if Truthy(g) then Some(ToUpper(g.value)) else None
  }

  // ----- search summaries -----

  /** One element of the `products` array of a search response. */
  datatype RawHit = RawHit(
    code: Option<string>,
    productName: Option<string>,
    brands: Option<string>,
    imageUrl: Option<string>,
    nutriscoreGrade: Option<string>,
    ecoscoreGrade: Option<string>)

  datatype Summary = Summary(
    id: string,
    name: string,
    brand: string,
    image: string,
    nutriScore: Option<string>,
    ecoScore: Option<string>)

  /** The filter: a hit is listed only when it has both a name and a code. */
  predicate Listed(h: RawHit) {
    Truthy(h.productName) && Truthy(h.code)
  }

  /** The map applied to a listed hit. */
  function Summarise(h: RawHit): (s: Summary)
    requires Listed(h)
    ensures s.id == h.code.value && s.name == h.productName.value
    ensures Truthy(h.brands) ==> s.brand == h.brands.value
    ensures !Truthy(h.brands) ==> s.brand == "Unknown Brand"
    ensures Truthy(h.imageUrl) ==> s.image == h.imageUrl.value
    ensures !Truthy(h.imageUrl) ==> s.image == "/placeholder.svg"
    ensures s.nutriScore == Grade(h.nutriscoreGrade) && s.ecoScore == Grade(h.ecoscoreGrade)
  {
    Summary(
      h.code.value,
      OrElse(h.productName, "Unknown Product"),
      OrElse(h.brands, "Unknown Brand"),
      OrElse(h.imageUrl, "/placeholder.svg"),
      Grade(h.nutriscoreGrade),
      Grade(h.ecoscoreGrade))
  }

  /** `products.filter(p => p.product_name && p.code).map(...)`. */
  function SearchResults(hits: seq<RawHit>): (r: seq<Summary>)
    ensures |r| <= |hits|
    ensures forall s :: s in r ==> s.id != "" && s.name != "" && IsEmittedGrade(s.nutriScore) && IsEmittedGrade(s.ecoScore)
  {
    if hits == [] then []
    else (if Listed(hits[0]) then [Summarise(hits[0])] else []) + SearchResults(hits[1..])
  }

  /** Filtering and mapping keep the response order: the results of a concatenation are the concatenated results. */
  lemma {:induction false} SearchResultsAppend(a: seq<RawHit>, b: seq<RawHit>)
    ensures SearchResults(a + b) == SearchResults(a) + SearchResults(b)
    decreases |a|
  {
    if a == [] {
      assert a + b == b;
    } else {
      assert (a + b)[0] == a[0];
      assert (a + b)[1..] == a[1..] + b;
      SearchResultsAppend(a[1..], b);
    }
  }

  /** A summary is in the results exactly when some listed hit maps to it. */
  lemma {:induction false} SearchResultsMembership(hits: seq<RawHit>, s: Summary)
    ensures s in SearchResults(hits) <==> exists h :: h in hits && Listed(h) && Summarise(h) == s
    decreases |hits|
  {
    if hits != [] {
      SearchResultsMembership(hits[1..], s);
      assert forall h :: h in hits <==> h == hits[0] || h in hits[1..];
    }
  }

  /** When every hit is listed, nothing is dropped and positions are preserved. */
  lemma {:induction false} SearchResultsAllListed(hits: seq<RawHit>)
    requires forall h :: h in hits ==> Listed(h)
    ensures |SearchResults(hits)| == |hits|
    ensures forall i :: 0 <= i < |hits| ==> SearchResults(hits)[i] == Summarise(hits[i])
    decreases |hits|
  {
    if hits != [] {
      assert hits[0] in hits;
      assert forall h :: h in hits[1..] ==> h in hits;
      SearchResultsAllListed(hits[1..]);
      forall i | 1 <= i < |hits|
        ensures SearchResults(hits)[i] == Summarise(hits[i])
      {
        assert hits[1..][i - 1] == hits[i];
      }
    }
  }

  // ----- full product records -----

  /** The `product` object of a by-code response (the fields the normalisation reads). */
  datatype RawProduct = RawProduct(
    code: Option<string>,
    documentId: Option<string>,
    productName: Option<string>,
    abbreviatedProductName: Option<string>,
    brands: Option<string>,
    imageUrl: Option<string>,
    imageFrontUrl: Option<string>,
    nutriscoreGrade: Option<string>,
    ecoscoreGrade: Option<string>,
    additivesTags: Option<seq<string>>,
    packagingTags: Option<seq<string>>,
    categoriesTags: Option<seq<string>>,
    nutriments: Option<map<string, real>>,
    ingredientsText: Option<string>)

  /** The eight per-100 g values of a normalised record. */
  datatype Nutrition = Nutrition(
    energy: real,
    fat: real,
    sugars: real,
    salt: real,
    protein: real,
    saturatedFat: real,
    fiber: real,
    sodium: real)

  datatype Product = Product(
    id: Option<string>,
    name: string,
    brand: string,
    image: string,
    nutriScore: Option<string>,
    ecoScore: Option<string>,
    additives: seq<string>,
    nutrition: Nutrition,
    packaging: seq<string>,
    ingredients: string,
    categories: seq<string>)

  function Values(n: Nutrition): seq<real> {
    [n.energy, n.fat, n.sugars, n.salt, n.protein, n.saturatedFat, n.fiber, n.sodium]
  }

  /** `nutriments[key] || 0`. */
  function Nutrient(m: map<string, real>, key: string): real {
    if key in m then m[key] else 0.0
  }

  /** The nutrition block: energy prefers kcal, then the generic energy value, then 0. */
  function NutritionOf(m: map<string, real>): (n: Nutrition)
    ensures n.energy ==
      if "energy-kcal_100g" in m && m["energy-kcal_100g"] != 0.0 then m["energy-kcal_100g"]
      else if "energy_100g" in m then m["energy_100g"]
      else 0.0
    ensures n.fat == (if "fat_100g" in m then m["fat_100g"] else 0.0)
    ensures n.sugars == (if "sugars_100g" in m then m["sugars_100g"] else 0.0)
    ensures n.salt == (if "salt_100g" in m then m["salt_100g"] else 0.0)
    ensures n.protein == (if "proteins_100g" in m then m["proteins_100g"] else 0.0)
    ensures n.saturatedFat == (if "saturated-fat_100g" in m then m["saturated-fat_100g"] else 0.0)
    ensures n.fiber == (if "fiber_100g" in m then m["fiber_100g"] else 0.0)
    ensures n.sodium == (if "sodium_100g" in m then m["sodium_100g"] else 0.0)
  {
    var kcal := Nutrient(m, "energy-kcal_100g");
    Nutrition(
      if kcal != 0.0 then kcal else Nutrient(m, "energy_100g"),
      Nutrient(m, "fat_100g"),
      Nutrient(m, "sugars_100g"),
      Nutrient(m, "salt_100g"),
      Nutrient(m, "proteins_100g"),
      Nutrient(m, "saturated-fat_100g"),
      Nutrient(m, "fiber_100g"),
      Nutrient(m, "sodium_100g"))
  }

  /** Additive tags lose their first "en:" and are upper-cased. */
  function AdditiveName(tag: string): string {
    ToUpper(RemoveFirst(tag, "en:"))
  }

  /** Packaging and category tags lose their first "en:" and every '-' becomes a space. */
  function PlainTag(tag: string): string {
    ReplaceChar(RemoveFirst(tag, "en:"), '-', ' ')
  }

  function AdditiveNames(tags: Option<seq<string>>): (r: seq<string>)
    ensures |r| == (if tags.Some? then |tags.value| else 0)
    ensures forall i :: 0 <= i < |r| ==> HasNoLower(r[i]) && r[i] == AdditiveName(tags.value[i])
  {
    if tags.None? then []
    else seq(|tags.value|, i requires 0 <= i < |tags.value| => AdditiveName(tags.value[i]))
  }

  function PlainTags(tags: Option<seq<string>>): (r: seq<string>)
    ensures |r| == (if tags.Some? then |tags.value| else 0)
    ensures forall i :: 0 <= i < |r| ==> '-' !in r[i] && r[i] == PlainTag(tags.value[i])
  {
    if tags.None? then []
    else seq(|tags.value|, i requires 0 <= i < |tags.value| => PlainTag(tags.value[i]))
  }

  /** `normalizeProductData`. */
  function NormalizeProduct(p: RawProduct): (r: Product)
    ensures r.name != "" && r.brand != "" && r.image != "" && r.ingredients != ""
    ensures IsEmittedGrade(r.nutriScore) && IsEmittedGrade(r.ecoScore)
    ensures r.id.Some? <==> Truthy(p.code) || p.documentId.Some?
    ensures Truthy(p.code) ==> r.id == p.code
    ensures !Truthy(p.code) ==> r.id == p.documentId
    ensures Truthy(p.productName) ==> r.name == p.productName.value
    ensures !Truthy(p.productName) && Truthy(p.abbreviatedProductName) ==> r.name == p.abbreviatedProductName.value
    ensures !Truthy(p.productName) && !Truthy(p.abbreviatedProductName) ==> r.name == "Unknown Product"
    ensures Truthy(p.brands) ==> r.brand == p.brands.value
    ensures !Truthy(p.brands) ==> r.brand == "Unknown Brand"
    ensures Truthy(p.imageUrl) ==> r.image == p.imageUrl.value
    ensures !Truthy(p.imageUrl) && Truthy(p.imageFrontUrl) ==> r.image == p.imageFrontUrl.value
    ensures !Truthy(p.imageUrl) && !Truthy(p.imageFrontUrl) ==> r.image == "/placeholder.svg"
    ensures Truthy(p.ingredientsText) ==> r.ingredients == p.ingredientsText.value
    ensures !Truthy(p.ingredientsText) ==> r.ingredients == "No ingredients listed"
    ensures r.nutriScore == Grade(p.nutriscoreGrade) && r.ecoScore == Grade(p.ecoscoreGrade)
    ensures r.additives == AdditiveNames(p.additivesTags)
    ensures r.packaging == PlainTags(p.packagingTags) && r.categories == PlainTags(p.categoriesTags)
    ensures r.nutrition == NutritionOf(p.nutriments.GetOr(map[]))
  {
    var m := p.nutriments.GetOr(map[]);
    Product(
      if Truthy(p.code) then p.code else p.documentId,
      OrElse(p.productName, OrElse(p.abbreviatedProductName, "Unknown Product")),
      OrElse(p.brands, "Unknown Brand"),
      OrElse(p.imageUrl, OrElse(p.imageFrontUrl, "/placeholder.svg")),
      Grade(p.nutriscoreGrade),
      Grade(p.ecoscoreGrade),
      AdditiveNames(p.additivesTags),
      NutritionOf(m),
      PlainTags(p.packagingTags),
      OrElse(p.ingredientsText, "No ingredients listed"),
      PlainTags(p.categoriesTags))
  }

  /** Energy prefers `energy-kcal_100g`; a missing or zero kcal value falls back to `energy_100g`, then to 0. */
  lemma EnergyPreference(p: RawProduct)
    ensures var m := p.nutriments.GetOr(map[]);
      NormalizeProduct(p).nutrition.energy ==
        if "energy-kcal_100g" in m && m["energy-kcal_100g"] != 0.0 then m["energy-kcal_100g"]
        else if "energy_100g" in m then m["energy_100g"]
        else 0.0
  {
  }

  /** A payload with no nutriments and no tag lists normalises to all-zero nutrition and empty lists. */
  lemma EmptyPayloadDefaults(p: RawProduct)
    requires p.nutriments.None? && p.additivesTags.None? && p.packagingTags.None? && p.categoriesTags.None?
    ensures forall v :: v in Values(NormalizeProduct(p).nutrition) ==> v == 0.0
    ensures NormalizeProduct(p).additives == [] && NormalizeProduct(p).packaging == [] && NormalizeProduct(p).categories == []
  {
  }

  /** A tag carrying the "en:" language prefix loses exactly that prefix. */
  lemma {:induction false} RemoveLanguagePrefix(tag: string)
    requires "en:" <= tag
    ensures RemoveFirst(tag, "en:") == tag[3..]
    ensures AdditiveName(tag) == ToUpper(tag[3..])
    ensures PlainTag(tag) == ReplaceChar(tag[3..], '-', ' ')
  {
    assert IndexOf(tag, "en:") == 0;
  }

  /**
   * A search hit and a by-code product carrying the same catalog fields are
   * presented alike: same id, name, brand and grades, and the same image
   * whenever the hit has one.
   */
  lemma SummaryAgreesWithProduct(h: RawHit, p: RawProduct)
    requires Listed(h)
    requires p.code == h.code && p.productName == h.productName && p.brands == h.brands
    requires p.imageUrl == h.imageUrl
    requires p.nutriscoreGrade == h.nutriscoreGrade && p.ecoscoreGrade == h.ecoscoreGrade
    ensures var s := Summarise(h); var r := NormalizeProduct(p);
      r.id == Some(s.id) && r.name == s.name && r.brand == s.brand &&
      r.nutriScore == s.nutriScore && r.ecoScore == s.ecoScore &&
      (Truthy(h.imageUrl) ==> r.image == s.image)
  {
  }

  /** A tag without "en:" anywhere is only re-spelled: `PlainTag` then changes just the dashes. */
  lemma {:induction false} TagWithoutPrefix(tag: string)
    requires IndexOf(tag, "en:") < 0
    ensures PlainTag(tag) == ReplaceChar(tag, '-', ' ')
    ensures AdditiveName(tag) == ToUpper(tag)
  {
  }
}
