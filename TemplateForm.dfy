/**
 * The template-submission form's validation schema: a length rule per
 * field, a required category selection, and the cross-field rule that a
 * newly created category needs a name longer than three characters.
 */
module TemplateForm {
  import opened Optional
  import opened Text

  /** The dropdown value that asks for a new category instead of an existing one. */
  const CREATE_NEW_CATEGORY: string := "create_new_category"

  const TITLE_MIN_LENGTH: nat := 5
  const DESCRIPTION_MIN_LENGTH: nat := 10
  const YAML_MIN_LENGTH: nat := 20
  /** A new category name must be strictly longer than this. */
  const NEW_CATEGORY_NAME_OVER: nat := 3

  /**
   * The form's five fields. `categorySelection` is undefined until an
   * option is picked; `newCategoryName` is optional.
   */
  datatype FormValues = FormValues(
    title: string,
    description: string,
    categorySelection: Option<string>,
    newCategoryName: Option<string>,
    yamlContent: string)

  /** The field a validation issue is attached to. */
  datatype Field = Title | Description | CategorySelection | NewCategoryName | YamlContent

  /** JavaScript truthiness of an optional string: present and not empty. */
  predicate Truthy(s: Option<string>)
  {
    s.Some? && s.value != ""
  }

  /** The `.refine` rule: choosing the sentinel requires a name of more than three characters. */
  predicate RefineHolds(v: FormValues)
  {
    v.categorySelection == Some(CREATE_NEW_CATEGORY) ==>
      Truthy(v.newCategoryName) && |v.newCategoryName.value| > NEW_CATEGORY_NAME_OVER
  }

  /** The schema accepts the form: every field rule and the refine rule hold. */
  predicate Accepts(v: FormValues)
  {
    && |v.title| >= TITLE_MIN_LENGTH
    && |v.description| >= DESCRIPTION_MIN_LENGTH
    && v.categorySelection.Some?
    && |v.yamlContent| >= YAML_MIN_LENGTH
    && RefineHolds(v)
  }

  /**
   * The fields that carry a validation issue, in the order the schema
   * reports them: the object's fields first, then the refine rule's path.
   */
  function Errors(v: FormValues): (r: seq<Field>)
    ensures Title in r <==> |v.title| < 5
    ensures Description in r <==> |v.description| < 10
    ensures CategorySelection in r <==> v.categorySelection == None
    ensures YamlContent in r <==> |v.yamlContent| < 20
    ensures NewCategoryName in r <==>
      v.categorySelection == Some("create_new_category") &&
      (v.newCategoryName == None || |v.newCategoryName.value| <= 3)
    ensures Distinct(r)
    ensures r == [] <==> Accepts(v)
  {
    (if |v.title| < TITLE_MIN_LENGTH then [Title] else [])
    + (if |v.description| < DESCRIPTION_MIN_LENGTH then [Description] else [])
    + (if v.categorySelection.None? then [CategorySelection] else [])
    + (if |v.yamlContent| < YAML_MIN_LENGTH then [YamlContent] else [])
    + (if RefineHolds(v) then [] else [NewCategoryName])
  }

  /**
   * Unless the sentinel is selected, the new-category field never affects
   * the verdict or the reported issues, whatever it holds.
   */
  lemma NewCategoryNameIgnoredUnlessCreating(v: FormValues, name: Option<string>)
    requires v.categorySelection != Some(CREATE_NEW_CATEGORY)
    ensures Accepts(v.(newCategoryName := name)) <==> Accepts(v)
    ensures Errors(v.(newCategoryName := name)) == Errors(v)
  {
  }

  /**
   * With the sentinel selected, the form is accepted exactly when the other
   * fields pass and a new name of at least four characters is present.
   */
  lemma CreatingNewNeedsName(v: FormValues)
    requires v.categorySelection == Some(CREATE_NEW_CATEGORY)
    ensures Accepts(v) <==>
      && |v.title| >= 5 && |v.description| >= 10 && |v.yamlContent| >= 20
      && v.newCategoryName.Some? && |v.newCategoryName.value| >= 4
  {
  }

  /** Any present selection, the empty string included, satisfies the selection rule. */
  lemma AnySelectionPasses(v: FormValues, selection: string)
    ensures CategorySelection !in Errors(v.(categorySelection := Some(selection)))
  {
  }
}
