/**
 * `classifyImageWithOpenAI`: the checks before the classifier is called, and
 * the validation of its JSON answer against the category vocabulary. The
 * classifier's reply and `JSON.parse` are inputs.
 */
module Classify {
  import opened Wrappers
  import opened Js
  import opened ImageCategories

  const KeyMissing: string := "OpenAI API key not configured"
  const ImageMissing: string := "Missing image data for classification"
  const NoContent: string := "OpenAI did not return valid response content."
  const ParseFailed: string := "Failed to parse classification JSON from OpenAI response."
  const InvalidStructure: string := "Received invalid classification structure from OpenAI."
  const Incomplete: string := "Received invalid or incomplete classification structure from OpenAI."
  const FailurePrefix: string := "OpenAI classification failed: "

  /** A pair the validation accepts: a well-typed `ImageCategory` that is not an integration. */
  predicate Acceptable(category: JsValue, subcategory: JsValue)
  {
    var x := AsImageCategory(category, subcategory);
    x.Some? && !x.value.IntegrationsCategory?
  }

  /**
   * The `isValid` flag: false unless the category is listed and the
   * subcategory fits it; an integration is listed but falls through to the
   * final branch and stays invalid.
   */
  method ValidatePair(category: JsValue, subcategory: JsValue) returns (isValid: bool)
    ensures isValid <==> Acceptable(category, subcategory)
  {
    isValid := false;
    if !(category.Str? && category.s in CategoryValues) {
    } else if category == Str("diet") {
      isValid := subcategory != Null && subcategory.Str? && subcategory.s in DietValues;
    } else if category == Str("health") {
      isValid := subcategory != Null && subcategory.Str? && subcategory.s in HealthValues;
    } else if category == Str("selfies") {
      isValid := subcategory == Null;
    } else {
    }
    AcceptableCases(category, subcategory);
  }

  /** The accepted pairs, category by category. */
  lemma AcceptableCases(category: JsValue, subcategory: JsValue)
    ensures Acceptable(category, subcategory) <==>
      || (category == Str("diet") && subcategory.Str? && subcategory.s in DietValues)
      || (category == Str("health") && subcategory.Str? && subcategory.s in HealthValues)
      || (category == Str("selfies") && subcategory == Null)
  {
    if category == Str("diet") && subcategory.Str? && subcategory.s in DietValues {
      assert subcategory.s == "receipts" || subcategory.s == "food_images";
    }
    if category == Str("health") && subcategory.Str? && subcategory.s in HealthValues {
      assert subcategory.s == "patient_records" || subcategory.s == "diagnostic_reports"
        || subcategory.s == "prescriptions" || subcategory.s == "surgical_documents" || subcategory.s == "other";
    }
  }

  /**
   * `classifyImageWithOpenAI(imageBase64)`, with the environment's API key,
   * the classifier's reply (its first choice's content, or the error the call
   * threw) and `JSON.parse` as inputs. The two checks before the `try` keep
   * their messages; every error inside it is rethrown with a prefix.
   */
  method ClassifyImageWithOpenAI(
    apiKey: Option<string>, imageBase64: string,
    completion: Result<Option<string>>, parse: string -> Result<JsValue>)
    returns (r: Result<JsValue>)
    ensures apiKey.None? || apiKey.value == "" ==> r == Err(KeyMissing)
    ensures apiKey.Some? && apiKey.value != "" && imageBase64 == "" ==> r == Err(ImageMissing)
    ensures r.Ok? <==>
      && apiKey.Some? && apiKey.value != "" && imageBase64 != ""
      && completion.Ok? && completion.value.Some? && completion.value.value != ""
      && parse(completion.value.value).Ok?
      && var v := parse(completion.value.value).value;
         Acceptable(Js.Get(v, "category"), Js.Get(v, "subcategory"))
    ensures r.Ok? ==> r.value == parse(completion.value.value).value
    ensures r.Err? && apiKey.Some? && apiKey.value != "" && imageBase64 != "" ==>
      exists m :: r.message == FailurePrefix + m
    ensures apiKey.Some? && apiKey.value != "" && imageBase64 != "" ==>
      (completion.Err? ==> r == Err(FailurePrefix + completion.message))
      && (completion.Ok? && (completion.value.None? || completion.value.value == "") ==> r == Err(FailurePrefix + NoContent))
  {
    if apiKey.None? || apiKey.value == "" {
      return Err(KeyMissing);
    }
    if imageBase64 == "" {
      return Err(ImageMissing);
    }
    var attempt := TryClassify(completion, parse);
    match attempt {
      case Ok(classification) => r := Ok(classification);
      case Err(message) => r := Err(FailurePrefix + message);
    }
  }

  /** The `try` block: an error's message, or the classification returned unchanged. */
  method TryClassify(completion: Result<Option<string>>, parse: string -> Result<JsValue>) returns (r: Result<JsValue>)
    ensures r.Ok? <==>
      && completion.Ok? && completion.value.Some? && completion.value.value != ""
      && parse(completion.value.value).Ok?
      && var v := parse(completion.value.value).value;
         Acceptable(Js.Get(v, "category"), Js.Get(v, "subcategory"))
    ensures r.Ok? ==> r.value == parse(completion.value.value).value
    ensures completion.Err? ==> r == Err(completion.message)
    ensures completion.Ok? && (completion.value.None? || completion.value.value == "") ==> r == Err(NoContent)
    ensures completion.Ok? && completion.value.Some? && completion.value.value != "" ==>
      (parse(completion.value.value).Err? ==> r == Err(ParseFailed))
    ensures completion.Ok? && completion.value.Some? && completion.value.value != "" && parse(completion.value.value).Ok? ==>
      var v := parse(completion.value.value).value;
      var category := Js.Get(v, "category");
      && (!Truthy(v) || !(category.Str? && category.s in CategoryValues) ==> r == Err(InvalidStructure))
      && (Truthy(v) && category.Str? && category.s in CategoryValues && !Acceptable(category, Js.Get(v, "subcategory")) ==>
            r == Err(Incomplete))
  {
    if completion.Err? {
      return Err(completion.message);
    }
    var messageContent := completion.value;
    if messageContent.None? || messageContent.value == "" {
      return Err(NoContent);
    }
    var parsed := parse(messageContent.value);
    if parsed.Err? {
      return Err(ParseFailed);
    }
    var classification := parsed.value;
    var category := Js.Get(classification, "category");
    if !Truthy(classification) || !Truthy(category) || !(category.Str? && category.s in CategoryValues) {
      ListedCategoryIsTruthy(classification, category);
      return Err(InvalidStructure);
    }
    var isValid := ValidatePair(category, Js.Get(classification, "subcategory"));
    if !isValid {
      return Err(Incomplete);
    }
    return Ok(classification);
  }

  /** An acceptable pair passes the structure check: its category is a listed, non-empty string, read from an object. */
  lemma ListedCategoryIsTruthy(v: JsValue, category: JsValue)
    requires category == Js.Get(v, "category")
    ensures Acceptable(category, Js.Get(v, "subcategory")) ==>
      Truthy(v) && Truthy(category) && category.Str? && category.s in CategoryValues
  {
    if Acceptable(category, Js.Get(v, "subcategory")) {
      AcceptableCases(category, Js.Get(v, "subcategory"));
    }
  }

  /**
   * The validation agrees with the vocabulary: a pair is accepted exactly
   * when it reads as an `ImageCategory` other than an integration, so every
   * `ImageCategory` except the integration pairs passes.
   */
  lemma AcceptsImageCategories(x: ImageCategory)
    ensures Acceptable(Str(CategoryValue(CategoryOf(x))), SubcategoryField(x)) <==> !x.IntegrationsCategory?
  {
    AsImageCategoryRoundTrip(x);
  }
}
