/**
 * The scaffolder page: the marketplace search and its grouping by
 * category, the category dropdown, and the session state that a template
 * submission updates (categories created this session, the form fields).
 */
module Scaffolder {
  import opened Optional
  import opened Text
  import opened Catalogue
  import opened TemplateForm

  // ---------------------------------------------------------------------
  // Category resolution on submit
  // ---------------------------------------------------------------------

  /** The dropdown currently asks for a new category. */
  predicate IsCreatingNew(selection: Option<string>)
  {
    selection == Some(CREATE_NEW_CATEGORY)
  }

  /** The category a submission is filed under: the typed name or the chosen option. */
  function FinalCategory(v: FormValues): (r: Option<string>)
  {
    if IsCreatingNew(v.categorySelection) then v.newCategoryName else v.categorySelection
  }

  /**
   * An accepted form always resolves to a category: a typed name of at
   * least four characters when creating, else the chosen option itself.
   */
  lemma AcceptedFinalCategory(v: FormValues)
    requires Accepts(v)
    ensures FinalCategory(v).Some?
    ensures IsCreatingNew(v.categorySelection) ==>
      FinalCategory(v) == v.newCategoryName && |FinalCategory(v).value| >= 4
    ensures !IsCreatingNew(v.categorySelection) ==>
      FinalCategory(v) == v.categorySelection && FinalCategory(v).value != "create_new_category"
  {
  }

  /**
   * The session's created categories after a submission: the typed name is
   * appended, without de-duplication, when creating with a non-empty name.
   */
  function CreatedAfterSubmit(created: seq<string>, v: FormValues): (r: seq<string>)
    ensures |created| <= |r| <= |created| + 1
    ensures r[..|created|] == created
    ensures |r| == |created| + 1 <==>
      v.categorySelection == Some("create_new_category") &&
      v.newCategoryName.Some? && |v.newCategoryName.value| > 0
    ensures |r| == |created| + 1 ==> r[|created|] == v.newCategoryName.value
  {
    if IsCreatingNew(v.categorySelection) && Truthy(v.newCategoryName)
    then created + [v.newCategoryName.value]
    else created
  }

  /** Submitting an accepted form that creates a category always records the new name. */
  lemma AcceptedNewCategoryIsRecorded(created: seq<string>, v: FormValues)
    requires Accepts(v) && IsCreatingNew(v.categorySelection)
    ensures CreatedAfterSubmit(created, v) == created + [FinalCategory(v).value]
  {
  }

  /** The form's values after a reset: empty texts and no category chosen. */
  const DEFAULT_VALUES: FormValues :=
    FormValues(title := "", description := "", categorySelection := None,
               newCategoryName := Some(""), yamlContent := "")

  /** A freshly reset form is rejected on every field that has a rule of its own. */
  lemma DefaultValuesRejected()
    ensures Errors(DEFAULT_VALUES) == [Title, Description, CategorySelection, YamlContent]
  {
  }

  // ---------------------------------------------------------------------
  // Category dropdown
  // ---------------------------------------------------------------------

  /** The dropdown's options: fixed categories, this session's categories, then the sentinel. */
  function CategoryOptions(created: seq<string>): (r: seq<string>)
    ensures |r| == |CATEGORIES| + |created| + 1
    ensures r[..|CATEGORIES|] == CATEGORIES
    ensures r[|CATEGORIES|..|r| - 1] == created
    ensures r[|r| - 1] == CREATE_NEW_CATEGORY
  {
    CATEGORIES + created + [CREATE_NEW_CATEGORY]
  }

  /**
   * Only the last option asks for a new category, unless a category created
   * this session was itself named like the sentinel.
   */
  lemma SentinelOnlyLast(created: seq<string>)
    ensures var r := CategoryOptions(created);
      (forall i :: 0 <= i < |r| - 1 ==> !IsCreatingNew(Some(r[i]))) <==> CREATE_NEW_CATEGORY !in created
  {
    var r := CategoryOptions(created);
    assert forall i :: 0 <= i < |CATEGORIES| ==> r[i] == CATEGORIES[i];
    assert forall i :: 0 <= i < |created| ==> r[|CATEGORIES| + i] == created[i];
    if CREATE_NEW_CATEGORY in created {
      var k :| 0 <= k < |created| && created[k] == CREATE_NEW_CATEGORY;
      assert r[|CATEGORIES| + k] == CREATE_NEW_CATEGORY;
    }
  }

  // ---------------------------------------------------------------------
  // Marketplace search
  // ---------------------------------------------------------------------

  /** The search keeps a template whose lower-cased title or category includes the lower-cased term. */
  predicate Matches(t: Template, term: string)
  {
    Contains(Lower(t.title), Lower(term)) || Contains(Lower(t.category), Lower(term))
  }

  function SearchFilter(term: string): Template -> bool
  {
    (t: Template) => Matches(t, term)
  }

  /** The templates a search term keeps, in their original order. */
  function FilterTemplates(ts: seq<Template>, term: string): (r: seq<Template>)
    ensures IsSubsequence(r, ts)
    ensures forall t :: t in r ==> t in ts && Matches(t, term)
    ensures forall i :: 0 <= i < |ts| && Matches(ts[i], term) ==> ts[i] in r
    ensures forall i :: 0 <= i < |ts| ==>
      multiset(r)[ts[i]] == if Matches(ts[i], term) then multiset(ts)[ts[i]] else 0
  {
    FilterIsSubsequence(SearchFilter(term), ts);
    FilterCounts(SearchFilter(term), ts);
    Filter(SearchFilter(term), ts)
  }

  /** An empty search term keeps every template. */
  lemma EmptySearchKeepsAll(ts: seq<Template>)
    ensures FilterTemplates(ts, "") == ts
  {
    forall i | 0 <= i < |ts|
      ensures SearchFilter("")(ts[i])
    {
      ContainsEmpty(Lower(ts[i].title));
    }
    FilterKeepsAll(SearchFilter(""), ts);
  }

  /** What a search over `ts` lists: the matching templates, in order; all of them for an empty term. */
  lemma SearchOf(ts: seq<Template>, term: string)
    ensures IsSubsequence(FilterTemplates(ts, term), ts)
    ensures forall t :: t in FilterTemplates(ts, term) <==> t in ts && Matches(t, term)
    ensures term == "" ==> FilterTemplates(ts, term) == ts
  {
    if term == "" {
      EmptySearchKeepsAll(ts);
    }
  }

  /** The search ignores the case of the term. */
  lemma SearchIgnoresTermCase(ts: seq<Template>, term: string)
    ensures FilterTemplates(ts, Lower(term)) == FilterTemplates(ts, term)
  {
    LowerIdempotent(term);
    FilterExtensional(SearchFilter(Lower(term)), SearchFilter(term), ts);
  }

  // ---------------------------------------------------------------------
  // Grouping by category
  // ---------------------------------------------------------------------

  /** Builds the category-to-templates record, one category at a time. */
  method GroupByCategory(filtered: seq<Template>, categories: seq<string>)
    returns (groups: map<string, seq<Template>>)
    ensures forall c :: c in groups <==> c in categories
    ensures forall c :: c in categories ==> groups[c] == Filter(InCategory(c), filtered)
  {
    groups := map[];
    for i := 0 to |categories|
      invariant forall c :: c in groups <==> c in categories[..i]
      invariant forall c :: c in categories[..i] ==> groups[c] == Filter(InCategory(c), filtered)
    {
      var category := categories[i];
      groups := groups[category := Filter(InCategory(category), filtered)];
      assert categories[..i + 1] == categories[..i] + [category];
    }
    assert categories[..|categories|] == categories;
  }

  /** The sum of the group sizes over a list of categories. */
  function GroupTotal(groups: map<string, seq<Template>>, cats: seq<string>): (total: nat)
    requires forall c :: c in cats ==> c in groups
  {
    if cats == [] then 0 else |groups[cats[0]]| + GroupTotal(groups, cats[1..])
  }

  /** How many of the templates each category in `cats` would hold, summed. */
  function Tally(ts: seq<Template>, cats: seq<string>): (total: nat)
  {
    if cats == [] then 0 else |Filter(InCategory(cats[0]), ts)| + Tally(ts, cats[1..])
  }

  function Occurrences(cats: seq<string>, x: string): nat
  {
    if cats == [] then 0 else (if cats[0] == x then 1 else 0) + Occurrences(cats[1..], x)
  }

  lemma {:induction false} OccursOnce(cats: seq<string>, x: string)
    requires Distinct(cats)
    ensures Occurrences(cats, x) == if x in cats then 1 else 0
  {
    if cats != [] {
      OccursOnce(cats[1..], x);
      if cats[0] == x {
        assert x !in cats[1..];
      }
    }
  }

  lemma {:induction false} TallyOfNothing(cats: seq<string>)
    ensures Tally([], cats) == 0
  {
    if cats != [] {
      TallyOfNothing(cats[1..]);
    }
  }

  lemma {:induction false} TallyCons(ts: seq<Template>, cats: seq<string>)
    requires ts != []
    ensures Tally(ts, cats) == Occurrences(cats, ts[0].category) + Tally(ts[1..], cats)
  {
    if cats != [] {
      TallyCons(ts, cats[1..]);
    }
  }

  /** Over distinct categories that cover every template, the category counts add up to the whole. */
  lemma {:induction false} TallyIsLength(ts: seq<Template>, cats: seq<string>)
    requires Distinct(cats)
    requires forall i :: 0 <= i < |ts| ==> ts[i].category in cats
    ensures Tally(ts, cats) == |ts|
  {
    if ts == [] {
      TallyOfNothing(cats);
    } else {
      TallyCons(ts, cats);
      OccursOnce(cats, ts[0].category);
      TallyIsLength(ts[1..], cats);
    }
  }

  lemma {:induction false} GroupTotalIsTally(groups: map<string, seq<Template>>, filtered: seq<Template>, cats: seq<string>)
    requires forall c :: c in cats ==> c in groups && groups[c] == Filter(InCategory(c), filtered)
    ensures GroupTotal(groups, cats) == Tally(filtered, cats)
  {
    if cats != [] {
      GroupTotalIsTally(groups, filtered, cats[1..]);
    }
  }

  /** The groups built over the fixed categories hold every filtered template exactly once. */
  lemma GroupSizesSumToFiltered(groups: map<string, seq<Template>>, filtered: seq<Template>)
    requires forall c :: c in CATEGORIES ==> c in groups && groups[c] == Filter(InCategory(c), filtered)
    ensures GroupTotal(groups, CATEGORIES) == |filtered|
  {
    CategoriesDistinct();
    GroupTotalIsTally(groups, filtered, CATEGORIES);
    TallyIsLength(filtered, CATEGORIES);
  }

  // ---------------------------------------------------------------------
  // What the marketplace tab renders
  // ---------------------------------------------------------------------

  /** The "no results" message is shown. */
  predicate ShowsNoResults(filtered: seq<Template>)
  {
    |filtered| == 0
  }

  /** The section of category `c` is rendered. */
  predicate ShowsSection(groups: map<string, seq<Template>>, c: string)
    requires c in groups
  {
    |groups[c]| != 0
  }

  /**
   * The "no results" message and the category sections exclude each other:
   * the message shows exactly when no section does.
   */
  lemma NoResultsIffNoSection(groups: map<string, seq<Template>>, filtered: seq<Template>)
    requires forall c :: c in CATEGORIES ==> c in groups && groups[c] == Filter(InCategory(c), filtered)
    ensures ShowsNoResults(filtered) <==> forall c :: c in CATEGORIES ==> !ShowsSection(groups, c)
  {
    if filtered != [] {
      var t := filtered[0];
      assert InCategory(t.category)(t);
      assert t in groups[t.category];
    }
  }

  /**
   * With an empty search, over templates that follow the fixed categories
   * position by position, every category shows exactly one template.
   */
  lemma EmptySearchShowsOnePerCategory(groups: map<string, seq<Template>>, ts: seq<Template>)
    requires |ts| == |CATEGORIES|
    requires forall i :: 0 <= i < |ts| ==> ts[i].category == CATEGORIES[i]
    requires forall c :: c in CATEGORIES ==>
      c in groups && groups[c] == Filter(InCategory(c), FilterTemplates(ts, ""))
    ensures forall c :: c in CATEGORIES ==> |groups[c]| == 1
  {
    EmptySearchKeepsAll(ts);
    CategoriesDistinct();
    forall c | c in CATEGORIES
      ensures |groups[c]| == 1
    {
      OnePerCategory(ts, CATEGORIES, c);
    }
  }

  // ---------------------------------------------------------------------
  // Page state
  // ---------------------------------------------------------------------

  /** What pressing the submit button did. */
  datatype SubmitOutcome =
    | Rejected(errors: seq<Field>)
    | Submitted(category: Option<string>)

  /** The scaffolder page's state: the search box, the session's categories and the form. */
  class ScaffolderPage {
    var searchTerm: string
    var createdCategoryOptions: seq<string>
    var form: FormValues

    constructor ()
      ensures searchTerm == "" && createdCategoryOptions == [] && form == DEFAULT_VALUES
    {
      searchTerm := "";
      createdCategoryOptions := [];
      form := DEFAULT_VALUES;
    }

    /** Typing in the search box. */
    method SetSearchTerm(term: string)
      modifies this`searchTerm
      ensures searchTerm == term
    {
      searchTerm := term;
    }

    /** Editing the form's inputs. */
    method EditForm(values: FormValues)
      modifies this`form
      ensures form == values
    {
      form := values;
    }

    /**
     * The templates the marketplace tab lists for the current search: the
     * matching built-in templates in catalogue order, all of them when the
     * search box is empty.
     */
    function FilteredTemplates(): (r: seq<Template>)
      reads this
      ensures IsSubsequence(r, MOCK_TEMPLATES)
      ensures forall t :: t in r <==> t in MOCK_TEMPLATES && Matches(t, searchTerm)
      ensures searchTerm == "" ==> r == MOCK_TEMPLATES
    {
      SearchOf(MOCK_TEMPLATES, searchTerm);
      FilterTemplates(MOCK_TEMPLATES, searchTerm)
    }

    /**
     * The options the category dropdown lists now: every fixed category and
     * every category created this session can be chosen, and the last
     * option asks for a new one.
     */
    function Options(): (r: seq<string>)
      reads this
      ensures forall c :: c in CATEGORIES ==> c in r
      ensures forall c :: c in createdCategoryOptions ==> c in r
      ensures r != [] && IsCreatingNew(Some(r[|r| - 1]))
    {
      var r := CategoryOptions(createdCategoryOptions);
      assert forall i :: 0 <= i < |CATEGORIES| ==> r[i] == CATEGORIES[i];
      assert forall i :: 0 <= i < |createdCategoryOptions| ==>
        r[|CATEGORIES| + i] == createdCategoryOptions[i];
      r
    }

    /**
     * Pressing submit: a rejected form keeps its values and reports its
     * issues; an accepted one is filed under its final category, a new
     * category is remembered for the session, and the form is reset.
     */
    method Submit() returns (outcome: SubmitOutcome)
      modifies this`form, this`createdCategoryOptions
      ensures !Accepts(old(form)) ==>
        && outcome == Rejected(Errors(old(form)))
        && form == old(form)
        && createdCategoryOptions == old(createdCategoryOptions)
      ensures Accepts(old(form)) ==>
        && outcome == Submitted(FinalCategory(old(form)))
        && createdCategoryOptions == CreatedAfterSubmit(old(createdCategoryOptions), old(form))
        && form == DEFAULT_VALUES
      ensures old(createdCategoryOptions) <= createdCategoryOptions
      ensures Accepts(old(form)) && IsCreatingNew(old(form).categorySelection) ==>
        FinalCategory(old(form)).value in Options()
    {
      if !Accepts(form) {
        return Rejected(Errors(form));
      }
      if IsCreatingNew(form.categorySelection) {
        AcceptedNewCategoryIsRecorded(createdCategoryOptions, form);
      }
      outcome := Submitted(FinalCategory(form));
      createdCategoryOptions := CreatedAfterSubmit(createdCategoryOptions, form);
      form := DEFAULT_VALUES;
    }
  }

  /**
   * A page whose search box is empty lists every built-in template, and the
   * marketplace section of each fixed category (its group, as
   * `GroupByCategory` builds it) shows exactly one of them.
   */
  lemma EmptySearchPageListsCatalogue(page: ScaffolderPage, c: CategoryName)
    requires page.searchTerm == ""
    ensures page.FilteredTemplates() == MOCK_TEMPLATES
    ensures |Filter(InCategory(c), page.FilteredTemplates())| == 1
  {
    MockTemplatesOnePerCategory(c);
  }
}
