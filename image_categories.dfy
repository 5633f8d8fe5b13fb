/**
 * The classification vocabulary of uploaded images: the top-level categories,
 * the subcategories of each, the pairs a classification may take, and the
 * description of them that the classifier prompt quotes.
 */
module ImageCategories {
  import opened Wrappers
  import opened Js

  datatype DietSubcategory = Receipts | FoodImages
  datatype HealthSubcategory = PatientRecords | DiagnosticReports | Prescriptions | SurgicalDocuments | Other
  datatype IntegrationsSubcategory = Strava
  datatype TopLevelCategory = Diet | Selfies | Health | Integrations

  function DietValue(d: DietSubcategory): string
  {
    match d
    case Receipts => "receipts"
    case FoodImages => "food_images"
  }

  function HealthValue(h: HealthSubcategory): string
  {
    match h
    case PatientRecords => "patient_records"
    case DiagnosticReports => "diagnostic_reports"
    case Prescriptions => "prescriptions"
    case SurgicalDocuments => "surgical_documents"
    case Other => "other"
  }

  function IntegrationsValue(i: IntegrationsSubcategory): string
  {
    match i
    case Strava => "strava"
  }

  function CategoryValue(c: TopLevelCategory): string
  {
    match c
    case Diet => "diet"
    case Selfies => "selfies"
    case Health => "health"
    case Integrations => "integrations"
  }

  /** `Object.values` of each enumeration, in declaration order. */
  const DietValues: seq<string> := ["receipts", "food_images"]
  const HealthValues: seq<string> := ["patient_records", "diagnostic_reports", "prescriptions", "surgical_documents", "other"]
  const IntegrationsValues: seq<string> := ["strava"]
  const CategoryValues: seq<string> := ["diet", "selfies", "health", "integrations"]

  /** The value lists hold exactly the enumerations' values, each once. */
  lemma ValuesAreTheEnumerations()
    ensures forall s :: s in DietValues <==> exists d :: DietValue(d) == s
    ensures forall s :: s in HealthValues <==> exists h :: HealthValue(h) == s
    ensures forall s :: s in IntegrationsValues <==> exists i :: IntegrationsValue(i) == s
    ensures forall s :: s in CategoryValues <==> exists c :: CategoryValue(c) == s
    ensures |DietValues| == 2 && |HealthValues| == 5 && |IntegrationsValues| == 1 && |CategoryValues| == 4
    ensures forall i, j :: 0 <= i < j < |HealthValues| ==> HealthValues[i] != HealthValues[j]
    ensures forall i, j :: 0 <= i < j < |CategoryValues| ==> CategoryValues[i] != CategoryValues[j]
  {
    forall s | s in DietValues ensures exists d :: DietValue(d) == s {
      if s == "receipts" { assert DietValue(Receipts) == s; } else { assert DietValue(FoodImages) == s; }
    }
    forall s | s in HealthValues ensures exists h :: HealthValue(h) == s {
      if s == "patient_records" { assert HealthValue(PatientRecords) == s; }
      else if s == "diagnostic_reports" { assert HealthValue(DiagnosticReports) == s; }
      else if s == "prescriptions" { assert HealthValue(Prescriptions) == s; }
      else if s == "surgical_documents" { assert HealthValue(SurgicalDocuments) == s; }
      else { assert HealthValue(Other) == s; }
    }
    forall s | s in IntegrationsValues ensures exists i :: IntegrationsValue(i) == s {
      assert IntegrationsValue(Strava) == s;
    }
    forall s | s in CategoryValues ensures exists c :: CategoryValue(c) == s {
      if s == "diet" { assert CategoryValue(Diet) == s; }
      else if s == "selfies" { assert CategoryValue(Selfies) == s; }
      else if s == "health" { assert CategoryValue(Health) == s; }
      else { assert CategoryValue(Integrations) == s; }
    }
  }

  /** `ImageCategory`: each top-level category with a subcategory of its own kind, selfies with none. */
  datatype ImageCategory =
    | DietCategory(diet: DietSubcategory)
    | SelfiesCategory
    | HealthCategory(health: HealthSubcategory)
    | IntegrationsCategory(integration: IntegrationsSubcategory)

  function CategoryOf(x: ImageCategory): TopLevelCategory
  {
    match x
    case DietCategory(_) => Diet
    case SelfiesCategory => Selfies
    case HealthCategory(_) => Health
    case IntegrationsCategory(_) => Integrations
  }

  /** The `subcategory` field of a pair: its text, or null for selfies. */
  function SubcategoryField(x: ImageCategory): JsValue
  {
    match x
    case DietCategory(d) => Str(DietValue(d))
    case SelfiesCategory => Null
    case HealthCategory(h) => Str(HealthValue(h))
    case IntegrationsCategory(i) => Str(IntegrationsValue(i))
  }

  /** The subcategory values that belong to a category. */
  function SubcategoryValues(c: TopLevelCategory): seq<string>
  {
    match c
    case Diet => DietValues
    case Selfies => []
    case Health => HealthValues
    case Integrations => IntegrationsValues
  }

  /**
   * Reading a `{category, subcategory}` pair of JSON values as an
   * `ImageCategory`: the category must be one of the four values and the
   * subcategory one of that category's values, or null for selfies.
   */
  function AsImageCategory(category: JsValue, subcategory: JsValue): (r: Option<ImageCategory>)
    ensures r.Some? ==> category == Str(CategoryValue(CategoryOf(r.value))) && subcategory == SubcategoryField(r.value)
  {
    match (category, subcategory)
    case (Str("diet"), Str("receipts")) => Some(DietCategory(Receipts))
    case (Str("diet"), Str("food_images")) => Some(DietCategory(FoodImages))
    case (Str("selfies"), Null) => Some(SelfiesCategory)
    case (Str("health"), Str("patient_records")) => Some(HealthCategory(PatientRecords))
    case (Str("health"), Str("diagnostic_reports")) => Some(HealthCategory(DiagnosticReports))
    case (Str("health"), Str("prescriptions")) => Some(HealthCategory(Prescriptions))
    case (Str("health"), Str("surgical_documents")) => Some(HealthCategory(SurgicalDocuments))
    case (Str("health"), Str("other")) => Some(HealthCategory(Other))
    case (Str("integrations"), Str("strava")) => Some(IntegrationsCategory(Strava))
    case _ => None
  }

  /** Every pair reads back as itself. */
  lemma AsImageCategoryRoundTrip(x: ImageCategory)
    ensures AsImageCategory(Str(CategoryValue(CategoryOf(x))), SubcategoryField(x)) == Some(x)
  {
    match x
    case DietCategory(d) =>
      assert CategoryValue(Diet) == "diet";
    case SelfiesCategory =>
      assert CategoryValue(Selfies) == "selfies";
    case HealthCategory(h) =>
      assert CategoryValue(Health) == "health";
    case IntegrationsCategory(i) =>
      assert CategoryValue(Integrations) == "integrations";
      assert |"integrations"| != |"diet"| && |"integrations"| != |"selfies"| && |"integrations"| != |"health"|;
      assert SubcategoryField(x) == Str("strava");
      assert i == Strava;
      assert AsImageCategory(Str("integrations"), Str("strava")) == Some(IntegrationsCategory(Strava));
  }

  /** A pair's subcategory is listed under its own category, and selfies carry none. */
  lemma SubcategoryBelongs(x: ImageCategory)
    ensures SubcategoryField(x).Str? <==> CategoryOf(x) != Selfies
    ensures SubcategoryField(x).Str? ==> SubcategoryField(x).s in SubcategoryValues(CategoryOf(x))
  {
  }

  // ------------------------------------------------------ the description

  /** The lines of the description's template literal, as written, grouped by category. */
  const DescriptionLines: seq<string> :=
    ["\n", "Categories and Subcategories:\n"] + DietLines + SelfiesLines + HealthLines + IntegrationsLines
  const DietLines: seq<string> := ["- diet\n", "  - receipts\n", "  - food_images\n"]
  const SelfiesLines: seq<string> := ["- selfies (no subcategory)\n"]
  const HealthLines: seq<string> := [
    "- health\n",
    "  - patient_records\n",
    "  - diagnostic_reports\n",
    "  - prescriptions\n",
    "  - surgical_documents\n",
    "  - other\n"]
  const IntegrationsLines: seq<string> := ["- integrations\n", "  - strava\n"]

  /** `getCategoryDescriptions()`: the template literal, the lines above one after another. */
  function GetCategoryDescriptions(): string
  {
    Concat(DescriptionLines)
  }

  /** A category's line; selfies say they have no subcategory. */
  function CategoryLine(c: TopLevelCategory): string
  {
    "- " + CategoryValue(c) + (if c == Selfies then " (no subcategory)" else "") + "\n"
  }

  function SubcategoryLines(values: seq<string>): (lines: seq<string>)
    ensures |lines| == |values|
    ensures forall i :: 0 <= i < |values| ==> lines[i] == "  - " + values[i] + "\n"
  {
    if values == [] then [] else ["  - " + values[0] + "\n"] + SubcategoryLines(values[1..])
  }

  /** A category's line followed by one line per subcategory value. */
  function Section(c: TopLevelCategory): seq<string>
  {
    [CategoryLine(c)] + SubcategoryLines(SubcategoryValues(c))
  }

  /** The description as an outline generated from the enumerations. */
  function Outline(): seq<string>
  {
    ["\n", "Categories and Subcategories:\n"] + Section(Diet) + Section(Selfies) + Section(Health) + Section(Integrations)
  }

  /**
   * The written description is exactly the outline of the enumerations: every
   * category in declaration order, each followed by all of its own
   * subcategory values and by no other.
   */
  lemma DescriptionIsOutline()
    ensures DescriptionLines == Outline()
    ensures GetCategoryDescriptions() == Concat(Outline())
  {
    DietSection();
    SelfiesSection();
    HealthSection();
    IntegrationsSection();
  }

  lemma DietSection()
    ensures Section(Diet) == DietLines
  {
    var lines := SubcategoryLines(DietValues);
    assert lines[0] == "  - " + "receipts" + "\n" == "  - receipts\n";
    assert lines[1] == "  - " + "food_images" + "\n" == "  - food_images\n";
    assert CategoryLine(Diet) == "- " + "diet" + "" + "\n" == "- diet\n";
  }

  lemma SelfiesSection()
    ensures Section(Selfies) == SelfiesLines
  {
    assert CategoryLine(Selfies) == "- " + "selfies" + " (no subcategory)" + "\n" == "- selfies (no subcategory)\n";
  }

  lemma HealthSection()
    ensures Section(Health) == HealthLines
  {
    HealthRecordLines();
    HealthTreatmentLines();
    assert CategoryLine(Health) == "- " + "health" + "" + "\n" == "- health\n";
    assert SubcategoryLines(HealthValues)[4] == "  - " + "other" + "\n" == "  - other\n";
  }

  lemma HealthRecordLines()
    ensures SubcategoryLines(HealthValues)[0] == HealthLines[1]
    ensures SubcategoryLines(HealthValues)[1] == HealthLines[2]
  {
    var lines := SubcategoryLines(HealthValues);
    assert lines[0] == "  - " + "patient_records" + "\n" == "  - patient_records\n";
    assert lines[1] == "  - " + "diagnostic_reports" + "\n" == "  - diagnostic_reports\n";
  }

  lemma HealthTreatmentLines()
    ensures SubcategoryLines(HealthValues)[2] == HealthLines[3]
    ensures SubcategoryLines(HealthValues)[3] == HealthLines[4]
  {
    var lines := SubcategoryLines(HealthValues);
    assert lines[2] == "  - " + "prescriptions" + "\n" == "  - prescriptions\n";
    assert lines[3] == "  - " + "surgical_documents" + "\n" == "  - surgical_documents\n";
  }

  lemma IntegrationsSection()
    ensures Section(Integrations) == IntegrationsLines
  {
    var lines := SubcategoryLines(IntegrationsValues);
    assert lines[0] == "  - " + "strava" + "\n" == "  - strava\n";
    assert CategoryLine(Integrations) == "- " + "integrations" + "" + "\n" == "- integrations\n";
  }
}
