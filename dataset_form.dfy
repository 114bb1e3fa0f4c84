/**
 * The product contribution form (src/components/DatasetForm.jsx): two image
 * slots with previews, AI auto-fill of the fields, validation, construction
 * of the stored entry and reset.
 *
 * The two network calls of the auto-fill and the Firestore write are
 * parameters: `identified`/`extracted` are the usable replies (`None` when
 * the call failed), `writeSucceeds` says whether `addDoc` resolved. Parsing
 * the numeric fields and the floating-point score formula are not modelled:
 * their results arrive as `nutrition` and `totalScore`.
 */
module DatasetForm {
  import opened Wrappers
  import opened Text
  import opened ImageUpload
  import opened Toasts

  // ----- grades -----

  predicate IsGrade(g: string) {
    g == "A" || g == "B" || g == "C" || g == "D" || g == "E"
  }

  /** The position of a grade letter, A best. */
  function GradeRank(g: string): nat {
    if g == "A" then 0 else if g == "B" then 1 else if g == "C" then 2 else if g == "D" then 3 else 4
  }

  /** The computed Nutri-Score: a step function of the total with thresholds 15, 20, 25 and 30 (all strict). */
  function ComputedGrade(totalScore: real): (g: string)
    ensures IsGrade(g)
    ensures g == "A" <==> totalScore <= 15.0
    ensures g == "E" <==> totalScore > 30.0
    ensures g == "B" <==> 15.0 < totalScore <= 20.0
    ensures g == "C" <==> 20.0 < totalScore <= 25.0
    ensures g == "D" <==> 25.0 < totalScore <= 30.0
  {
    if totalScore > 30.0 then "E"
    else if totalScore > 25.0 then "D"
    else if totalScore > 20.0 then "C"
    else if totalScore > 15.0 then "B"
    else "A"
  }

  /** A higher total never gives a better grade. */
  lemma ComputedGradeMonotone(t1: real, t2: real)
    requires t1 <= t2
    ensures GradeRank(ComputedGrade(t1)) <= GradeRank(ComputedGrade(t2))
  {
  }

  // ----- form state -----

  datatype FormData = FormData(
    productName: string,
    brand: string,
    energy: string,
    fat: string,
    sugars: string,
    salt: string,
    protein: string,
    fiber: string,
    sodium: string,
    ingredients: string,
    allergens: string,
    nutriScore: string,
    ecoScore: string)

  /** The initial field values, restored by reset and after a successful submit. */
  const EmptyForm: FormData := FormData("", "", "", "", "", "", "", "", "", "", "", "A", "B")

  /** The form's own fields; the two grades are `<select>`s offering A to E. */
  datatype Field =
    | ProductName | Brand | Energy | Fat | Sugars | Salt | Protein | Fiber | Sodium
    | Ingredients | Allergens | NutriScore | EcoScore

  /** `handleInputChange`: one field takes the new value. */
  function WithField(f: FormData, field: Field, value: string): FormData {
    match field
    case ProductName => f.(productName := value)
    case Brand => f.(brand := value)
    case Energy => f.(energy := value)
    case Fat => f.(fat := value)
    case Sugars => f.(sugars := value)
    case Salt => f.(salt := value)
    case Protein => f.(protein := value)
    case Fiber => f.(fiber := value)
    case Sodium => f.(sodium := value)
    case Ingredients => f.(ingredients := value)
    case Allergens => f.(allergens := value)
    case NutriScore => f.(nutriScore := value)
    case EcoScore => f.(ecoScore := value)
  }

  // ----- auto-fill -----

  /** The identification reply: `data.name` and `data.brand`. */
  datatype Identified = Identified(name: Option<string>, brand: Option<string>)

  /** `nutrition.<field>?.toString()` for each extracted value. */
  datatype ExtractedNutrition = ExtractedNutrition(
    energy: Option<string>, fat: Option<string>, sugars: Option<string>, salt: Option<string>,
    protein: Option<string>, fiber: Option<string>, sodium: Option<string>)

  const NoNutrition: ExtractedNutrition := ExtractedNutrition(None, None, None, None, None, None, None)

  /** The label-extraction reply: `data.nutrition`, `data.ingredients`, and `data.allergens` when it is an array. */
  datatype Extracted = Extracted(nutrition: Option<ExtractedNutrition>, ingredients: Option<string>, allergens: Option<seq<string>>)

  /** A field after the merge: the extracted value when it is a non-empty string, the previous value otherwise. */
  predicate TakesOrKeeps(x: Option<string>, prev: string, r: string) {
    (Truthy(x) ==> r == x.value) && (!Truthy(x) ==> r == prev)
  }

  /**
   * The auto-fill merge: each field takes the extracted value when it is a
   * non-empty string and otherwise keeps its value; allergens are replaced
   * only by an array, joined with ", "; the two grades are left alone.
   */
  function Merge(prev: FormData, id: Identified, ex: Extracted): (r: FormData)
    ensures r.nutriScore == prev.nutriScore && r.ecoScore == prev.ecoScore
    ensures TakesOrKeeps(id.name, prev.productName, r.productName)
    ensures TakesOrKeeps(id.brand, prev.brand, r.brand)
    ensures var n := ex.nutrition.GetOr(NoNutrition);
      TakesOrKeeps(n.energy, prev.energy, r.energy) && TakesOrKeeps(n.fat, prev.fat, r.fat) &&
      TakesOrKeeps(n.sugars, prev.sugars, r.sugars) && TakesOrKeeps(n.salt, prev.salt, r.salt) &&
      TakesOrKeeps(n.protein, prev.protein, r.protein) && TakesOrKeeps(n.fiber, prev.fiber, r.fiber) &&
      TakesOrKeeps(n.sodium, prev.sodium, r.sodium)
    ensures TakesOrKeeps(ex.ingredients, prev.ingredients, r.ingredients)
    ensures r.allergens == if ex.allergens.Some? then Join(ex.allergens.value, ", ") else prev.allergens
  {
    var n := ex.nutrition.GetOr(NoNutrition);
    prev.(
      productName := OrElse(id.name, prev.productName),
      brand := OrElse(id.brand, prev.brand),
      energy := OrElse(n.energy, prev.energy),
      fat := OrElse(n.fat, prev.fat),
      sugars := OrElse(n.sugars, prev.sugars),
      salt := OrElse(n.salt, prev.salt),
      protein := OrElse(n.protein, prev.protein),
      fiber := OrElse(n.fiber, prev.fiber),
      sodium := OrElse(n.sodium, prev.sodium),
      ingredients := OrElse(ex.ingredients, prev.ingredients),
      allergens := if ex.allergens.Some? then Join(ex.allergens.value, ", ") else prev.allergens)
  }

  /** Applying the same extraction twice changes nothing more than applying it once. */
  lemma MergeIdempotent(prev: FormData, id: Identified, ex: Extracted)
    ensures Merge(Merge(prev, id, ex), id, ex) == Merge(prev, id, ex)
  {
  }

  /** An extraction that found nothing leaves the form as it was. */
  lemma MergeNothing(prev: FormData)
    ensures Merge(prev, Identified(None, None), Extracted(None, None, None)) == prev
  {
  }

  // ----- allergens -----

  /** The trimmed, non-empty pieces, in order. */
  function CleanParts(parts: seq<string>): (r: seq<string>)
    ensures |r| <= |parts|
    ensures forall x :: x in r ==> x != "" && IsTrimmed(x)
  {
    if parts == [] then []
    else
      var t := Trim(parts[0]);
      (if t == "" then [] else [t]) + CleanParts(parts[1..])
  }

  /** Every kept piece is the trimmed form of some input piece. */
  lemma {:induction false} CleanPartsFrom(parts: seq<string>, x: string)
    requires x in CleanParts(parts)
    ensures exists p :: p in parts && x == Trim(p)
    decreases |parts|
  {
    if x != Trim(parts[0]) {
      CleanPartsFrom(parts[1..], x);
      var p :| p in parts[1..] && x == Trim(p);
      assert p in parts;
    }
  }

  /** A single piece is kept, trimmed, exactly when it is not blank. */
  lemma CleanPartsSingle(p: string)
    ensures CleanParts([p]) == if Trim(p) == "" then [] else [Trim(p)]
  {
    assert [p][1..] == [];
  }

  /** Cleaning keeps the pieces' order: the pieces of a concatenation clean to the concatenated results. */
  lemma {:induction false} CleanPartsAppend(a: seq<string>, b: seq<string>)
    ensures CleanParts(a + b) == CleanParts(a) + CleanParts(b)
    decreases |a|
  {
    if a == [] {
      assert a + b == b;
    } else {
      assert (a + b)[0] == a[0];
      assert (a + b)[1..] == a[1..] + b;
      CleanPartsAppend(a[1..], b);
    }
  }

  /** What submit stores: `allergens.split(',').map(trim).filter(non-empty)`, and `[]` for an empty field. */
  function ParseAllergens(field: string): (r: seq<string>)
    ensures forall x :: x in r ==> IsAllergenName(x)
    ensures field == "" ==> r == []
    ensures field != "" ==> r == CleanParts(Split(field, ','))
  {
    if field == "" then []
    else
      var parts := Split(field, ',');
      var r := CleanParts(parts);
      forall x | x in r ensures ',' !in x {
        CleanPartsFrom(parts, x);
        var p :| p in parts && x == Trim(p);
        NoNewCharacters(p, ',');
      }
      r
  }

  /** An allergen name as parsing produces it. */
  predicate IsAllergenName(x: string) {
    x != "" && IsTrimmed(x) && ',' !in x
  }

  lemma NoNewCharacters(s: string, c: char)
    requires c !in s
    ensures c !in Trim(s)
  {
    var k := TrimIsSlice(s);
    assert forall i :: 0 <= i < |Trim(s)| ==> Trim(s)[i] == s[k + i];
  }

  /**
   * The auto-fill and the submit agree on allergens: a list joined with
   * ", " by the merge parses back to the same list.
   */
  lemma ParseJoinedAllergens(xs: seq<string>)
    requires forall x :: x in xs ==> IsAllergenName(x)
    ensures ParseAllergens(Join(xs, ", ")) == xs
  {
    if xs != [] {
      CleanSplitJoin("", xs);
      assert "" + Join(xs, ", ") == Join(xs, ", ");
      if |xs| > 1 {
        assert Join(xs, ", ")[..|xs[0]|] == xs[0];
      }
    }
  }

  /** Splitting at a first separator that follows a separator-free piece. */
  lemma SplitAtFirstComma(a: string, rest: string)
    requires ',' !in a
    ensures Split(a + ([','] + rest), ',') == [a] + Split(rest, ',')
  {
    SplitUnderPrefix(a, [','] + rest, ',');
    assert ([','] + rest)[0] == ',';
    assert ([','] + rest)[1..] == rest;
    assert Split([','] + rest, ',') == [""] + Split(rest, ',');
    assert a + "" == a;
  }

  /** A joined list of two or more names, seen as its first name, a comma, and the rest. */
  lemma JoinAtFirstComma(w: string, xs: seq<string>)
    requires |xs| > 1
    ensures w + Join(xs, ", ") == (w + xs[0]) + ([','] + (" " + Join(xs[1..], ", ")))
  {
  }

  /** Splitting a joined list of two or more names at its first comma. */
  lemma SplitJoinStep(w: string, xs: seq<string>)
    requires |xs| > 1 && ',' !in w && ',' !in xs[0]
    ensures Split(w + Join(xs, ", "), ',') == [w + xs[0]] + Split(" " + Join(xs[1..], ", "), ',')
  {
    JoinAtFirstComma(w, xs);
    SplitAtFirstComma(w + xs[0], " " + Join(xs[1..], ", "));
  }

  /** A name after leading white space cleans back to the name. */
  lemma CleanPadded(w: string, x: string)
    requires AllWhitespace(w) && IsAllergenName(x)
    ensures CleanParts([w + x]) == [x]
  {
    TrimAfterLeadingWhitespace(w, x);
    TrimOfTrimmed(x);
    CleanPartsSingle(w + x);
  }

  lemma {:induction false} CleanSplitJoin(w: string, xs: seq<string>)
    requires AllWhitespace(w) && ',' !in w
    requires xs != [] && forall x :: x in xs ==> IsAllergenName(x)
    ensures CleanParts(Split(w + Join(xs, ", "), ',')) == xs
    decreases |xs|
  {
    assert xs[0] in xs;
    CleanPadded(w, xs[0]);
    if |xs| == 1 {
      SplitWithoutSeparator(w + xs[0], ',');
    } else {
      SplitJoinStep(w, xs);
      var rest := Split(" " + Join(xs[1..], ", "), ',');
      assert forall x :: x in xs[1..] ==> x in xs;
      assert AllWhitespace(" ");
      CleanSplitJoin(" ", xs[1..]);
      CleanPartsAppend([w + xs[0]], rest);
      assert xs == [xs[0]] + xs[1..];
    }
  }

  // ----- submit -----

  /** `parseFloat(field) || 0` for the seven numeric fields. */
  datatype ParsedNutrition = ParsedNutrition(
    energy: real, fat: real, sugars: real, salt: real, protein: real, fiber: real, sodium: real)

  /** The document written to `sharedProducts`. */
  datatype DatasetEntry = DatasetEntry(
    userId: string,
    productName: string,
    brand: Option<string>,
    nutrition: ParsedNutrition,
    ingredients: string,
    allergens: seq<string>,
    nutriScore: string,
    ecoScore: string,
    packaging: seq<string>,
    description: string,
    productImageUrl: Option<string>,
    nutritionImageUrl: Option<string>,
    verified: bool)

  /** The entry built on submit. */
  function BuildEntry(form: FormData, userId: string, nutrition: ParsedNutrition, totalScore: real,
                      productPreview: Option<string>, nutritionPreview: Option<string>): (e: DatasetEntry)
    ensures e.productName == Trim(form.productName)
    ensures e.brand.Some? <==> Trim(form.brand) != ""
    ensures e.brand.Some? ==> e.brand.value == Trim(form.brand)
    ensures e.ingredients != "" && IsTrimmed(e.ingredients)
    ensures Trim(form.ingredients) != "" ==> e.ingredients == Trim(form.ingredients)
    ensures Trim(form.ingredients) == "" ==> e.ingredients == "Not available"
    ensures e.userId == userId && e.nutrition == nutrition
    ensures e.productImageUrl == productPreview && e.nutritionImageUrl == nutritionPreview
    ensures e.allergens == ParseAllergens(form.allergens)
    ensures e.nutriScore == (if form.nutriScore != "" then form.nutriScore else ComputedGrade(totalScore))
    ensures e.ecoScore == (if form.ecoScore != "" then form.ecoScore else "B")
    ensures e.packaging == [] && !e.verified
    ensures e.description == e.productName + (if e.brand.Some? then " by " + e.brand.value else "")
  {
    var name := Trim(form.productName);
    var brand := Trim(form.brand);
    var ingredients := Trim(form.ingredients);
    DatasetEntry(
      userId,
      name,
      if brand != "" then Some(brand) else None,
      nutrition,
      if ingredients != "" then ingredients else "Not available",
      ParseAllergens(form.allergens),
      if form.nutriScore != "" then form.nutriScore else ComputedGrade(totalScore),
      if form.ecoScore != "" then form.ecoScore else "B",
      [],
      name + (if brand != "" then " by " + brand else ""),
      productPreview,
      nutritionPreview,
      false)
  }

  /** Which image slot a file is for: `type === 'product'`, or anything else. */
  datatype Slot = ProductSlot | NutritionSlot

  /** The error toast for a refused file. */
  function ImageError(c: ImageCheck, slot: Slot): (msg: string)
    requires c != Acceptable
    ensures c == NotAnImage ==> msg == "Please select an image file for " + SlotNoun(slot)
    ensures c == TooLarge ==> msg == SlotTitle(slot) + " image size should be less than 10MB"
  {
    if c == NotAnImage then "Please select an image file for " + SlotNoun(slot)
    else SlotTitle(slot) + " image size should be less than 10MB"
  }

  /** How the type error names a slot. */
  function SlotNoun(slot: Slot): string {
    if slot == ProductSlot then "product image" else "nutrition label"
  }

  /** How the size error names a slot. */
  function SlotTitle(slot: Slot): string {
    if slot == ProductSlot then "Product" else "Nutrition"
  }

  /** The two slots' refusals never read alike, so the toast tells the user which image to replace. */
  lemma ImageErrorNamesSlot(c: ImageCheck)
    requires c != Acceptable
    ensures ImageError(c, ProductSlot) != ImageError(c, NutritionSlot)
  {
    if c == NotAnImage {
      assert ImageError(c, ProductSlot)[32] == 'p';
      assert ImageError(c, NutritionSlot)[32] == 'n';
    } else {
      assert ImageError(c, ProductSlot)[0] == 'P';
      assert ImageError(c, NutritionSlot)[0] == 'N';
    }
  }

  class ContributionForm {
    var productImage: Option<ImageFile>
    var nutritionImage: Option<ImageFile>
    var productPreview: Option<string>
    var nutritionPreview: Option<string>
    var loading: bool
    var toast: Toast
    var form: FormData
    /** The documents added to `sharedProducts`, in order. */
    var written: seq<DatasetEntry>

    /** The two grade fields always hold a letter A to E. */
    ghost predicate Valid()
      reads this
    {
      IsGrade(form.nutriScore) && IsGrade(form.ecoScore)
    }

    constructor ()
      ensures Valid()
      ensures form == EmptyForm && productImage == None && nutritionImage == None
      ensures productPreview == None && nutritionPreview == None && !loading && written == []
      ensures !toast.visible
    {
      productImage, nutritionImage := None, None;
      productPreview, nutritionPreview := None, None;
      loading := false;
      toast := HiddenToast;
      form := EmptyForm;
      written := [];
    }

    method ShowToast(message: string, kind: ToastKind)
      modifies this`toast
      ensures toast == Shown(message, kind)
    {
      toast := Shown(message, kind);
    }

    method HideToast()
      modifies this`toast
      ensures toast == Hidden(old(toast))
    {
      toast := Hidden(toast);
    }

    /** `handleInputChange`; a grade select only offers A to E. */
    method HandleInputChange(field: Field, value: string)
      requires Valid()
      requires field == NutriScore || field == EcoScore ==> IsGrade(value)
      modifies this`form
      ensures Valid() && form == WithField(old(form), field, value)
    {
      form := WithField(form, field, value);
    }

    /**
     * `handleImageFile`: no file changes nothing; a refused file only shows
     * an error; an accepted file fills the slot `slot` and no other.
     */
    method HandleImageFile(file: Option<ImageFile>, slot: Slot)
      requires Valid()
      modifies this`productImage, this`nutritionImage, this`toast
      ensures Valid()
      ensures file.None? ==> unchanged(this)
      ensures file.Some? && CheckImage(file.value) != Acceptable ==>
        toast == Shown(ImageError(CheckImage(file.value), slot), ErrorToast)
        && productImage == old(productImage) && nutritionImage == old(nutritionImage)
      ensures file.Some? && CheckImage(file.value) == Acceptable ==>
        toast == old(toast)
        && productImage == (if slot == ProductSlot then file else old(productImage))
        && nutritionImage == (if slot == NutritionSlot then file else old(nutritionImage))
    {
      if file.None? {
        return;
      }
      var c := CheckImage(file.value);
      if c != Acceptable {
        ShowToast(ImageError(c, slot), ErrorToast);
        return;
      }
      if slot == ProductSlot {
        productImage := file;
      } else {
        nutritionImage := file;
      }
    }

    /** The `FileReader` started by `handleImageFile` has produced the data URL of the slot's image. */
    method PreviewLoaded(slot: Slot, dataUrl: string)
      modifies this`productPreview, this`nutritionPreview
      ensures productPreview == (if slot == ProductSlot then Some(dataUrl) else old(productPreview))
      ensures nutritionPreview == (if slot == NutritionSlot then Some(dataUrl) else old(nutritionPreview))
    {
      if slot == ProductSlot {
        productPreview := Some(dataUrl);
      } else {
        nutritionPreview := Some(dataUrl);
      }
    }

    /**
     * `extractDataFromImages`. Without both images nothing is requested.
     * Otherwise the identification request is made, then (if it succeeded)
     * the extraction request; only when both succeed is the form merged.
     */
    method ExtractDataFromImages(identified: Option<Identified>, extracted: Option<Extracted>)
      returns (ok: bool, requests: nat)
      requires Valid()
      modifies this`form, this`toast, this`loading
      ensures Valid()
      ensures old(productImage).None? || old(nutritionImage).None? ==>
        !ok && requests == 0 && form == old(form)
        && toast == Shown("Please upload both product image and nutrition label image", ErrorToast)
        && loading == old(loading)
      ensures old(productImage).Some? && old(nutritionImage).Some? ==>
        !loading && requests == (if identified.None? then 1 else 2)
        && ok == (identified.Some? && extracted.Some?)
        && form == (if ok then Merge(old(form), identified.value, extracted.value) else old(form))
        && toast == (if ok then Shown("Data extracted successfully! Please review and edit if needed.", SuccessToast)
                     else Shown("AI extraction failed. Please fill in the fields manually.", WarningToast))
    {
      if productImage.None? || nutritionImage.None? {
        ShowToast("Please upload both product image and nutrition label image", ErrorToast);
        return false, 0;
      }
      ShowToast("Extracting data from images...", InfoToast);
      loading := true;
      // The extraction request is made only once identification has succeeded.
      requests := if identified.None? then 1 else 2;
      ok := identified.Some? && extracted.Some?;
      if ok {
        form := Merge(form, identified.value, extracted.value);
        ShowToast("Data extracted successfully! Please review and edit if needed.", SuccessToast);
      } else {
        ShowToast("AI extraction failed. Please fill in the fields manually.", WarningToast);
      }
      loading := false;
    }

    /** `handleReset`: empty fields, default grades, no images and no previews. */
    method HandleReset()
      modifies this`form, this`productImage, this`nutritionImage, this`productPreview, this`nutritionPreview
      ensures Valid()
      ensures form == EmptyForm && productImage == None && nutritionImage == None
      ensures productPreview == None && nutritionPreview == None
    {
      productImage, nutritionImage := None, None;
      productPreview, nutritionPreview := None, None;
      form := EmptyForm;
    }

    /**
     * `handleSubmit`. A blank name is refused before the signed-in check;
     * then the entry is written; a successful write resets the form, a
     * failed one leaves it as it was.
     */
    method HandleSubmit(user: Option<string>, nutrition: ParsedNutrition, totalScore: real,
                        writeSucceeds: bool, writeError: string)
      returns (entry: Option<DatasetEntry>)
      requires Valid()
      modifies this`form, this`toast, this`loading, this`written
      modifies this`productImage, this`nutritionImage, this`productPreview, this`nutritionPreview
      ensures Valid()
      ensures Trim(old(form).productName) == "" ==>
        entry.None? && written == old(written) && form == old(form) && loading == old(loading)
        && toast == Shown("Please enter a product name", ErrorToast)
      ensures Trim(old(form).productName) != "" && user.None? ==>
        entry.None? && written == old(written) && form == old(form) && loading == old(loading)
        && toast == Shown("Please sign in to contribute products", ErrorToast)
      ensures Trim(old(form).productName) == "" || user.None? ==>
        productImage == old(productImage) && nutritionImage == old(nutritionImage)
        && productPreview == old(productPreview) && nutritionPreview == old(nutritionPreview)
      ensures Trim(old(form).productName) != "" && user.Some? ==>
        var e := BuildEntry(old(form), user.value, nutrition, totalScore, old(productPreview), old(nutritionPreview));
        && !loading && entry == (if writeSucceeds then Some(e) else None)
        && written == (if writeSucceeds then old(written) + [e] else old(written))
        && (writeSucceeds ==>
              form == EmptyForm && productImage == None && nutritionImage == None
              && productPreview == None && nutritionPreview == None
              && toast == Shown("Product contributed successfully! Thank you for your contribution.", SuccessToast))
        && (!writeSucceeds ==>
              form == old(form) && productImage == old(productImage) && nutritionImage == old(nutritionImage)
              && productPreview == old(productPreview) && nutritionPreview == old(nutritionPreview)
              && toast == Shown(if writeError != "" then writeError else "Failed to contribute product. Please try again.", ErrorToast))
    {
      if Trim(form.productName) == "" {
        ShowToast("Please enter a product name", ErrorToast);
        return None;
      }
      if user.None? {
        ShowToast("Please sign in to contribute products", ErrorToast);
        return None;
      }
      loading := true;
      var e := BuildEntry(form, user.value, nutrition, totalScore, productPreview, nutritionPreview);
      if writeSucceeds {
        written := written + [e];
        ShowToast("Product contributed successfully! Thank you for your contribution.", SuccessToast);
        HandleReset();
        entry := Some(e);
      } else {
        ShowToast(if writeError != "" then writeError else "Failed to contribute product. Please try again.", ErrorToast);
        entry := None;
      }
      loading := false;
    }
  }

  /**
   * The grade select never leaves the form's Nutri-Score empty, so the
   * stored grade is always the selected one and the computed grade is never used.
   */
  lemma SelectedGradeAlwaysWins(form: FormData, userId: string, nutrition: ParsedNutrition, totalScore: real,
                                pp: Option<string>, np: Option<string>)
    requires IsGrade(form.nutriScore) && IsGrade(form.ecoScore)
    ensures BuildEntry(form, userId, nutrition, totalScore, pp, np).nutriScore == form.nutriScore
    ensures BuildEntry(form, userId, nutrition, totalScore, pp, np).ecoScore == form.ecoScore
  {
  }
}
