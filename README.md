# DevCentral dashboard: scaffolder form, marketplace and GitOps selection, in Dafny

This project models the client-side logic of the DevCentral developer-platform
dashboard, in three parts.

- **Template-submission form.** The validation schema (`formSchema`) checks
  `title`, `description`, `categorySelection`, `newCategoryName` and
  `yamlContent`. It adds a cross-field rule for the `"create_new_category"`
  sentinel. This is `TemplateForm.dfy`.
- **Scaffolder page.** The marketplace search filter matches case-insensitively
  on title or category. Matching templates are grouped by the fixed category
  list. The page also builds the category dropdown and resolves which category
  a submission is filed under. Its session state is the list of categories
  created this session and the form, which is reset after a submission. This
  is `Scaffolder.dfy`, over the catalogue in `Catalogue.dfy`.
- **GitOps page.** This state machine holds the repository list, the selected
  repository, its pull requests and two loading flags. Fetch results are
  inputs to the transitions. The pull-request URL is proved to match the
  route pattern `/api/github/repos/:owner/:repo/pulls` that the page names
  for it, read with Express-style one-segment parameters, and to give back
  the same owner and repository. This is `GitOps.dfy`.

`Text.dfy` holds the primitives the pages rely on:
- ASCII `toLowerCase`;
- `includes` on strings;
- `filter` on arrays;
- `toString` on integer ids.

Pure logic is written as functions and lemmas. Page state is written as classes
whose methods update their fields. Grouping by category (a `reduce` into a
record) is a method with a loop.

The model follows the code as written in three places where a reader might
expect otherwise:
- The refine at `apps/web/src/zod/ScaffolderZod.ts:26` asks for a new
  category name longer than three characters, so four characters suffice.
- `categorySelection` only has to be present
  (`apps/web/src/zod/ScaffolderZod.ts:13-15`). The empty string passes.
- Submitting does not call the API
  (`apps/web/src/pages/scaffolder/ScaffolderPage.tsx:84-97`). It resolves the
  category, records a newly created category for the session and resets the
  form.

## Model

| member | source | states |
|---|---|---|
| TemplateForm.Errors | apps/web/src/zod/ScaffolderZod.ts:4-34 | Each field's issue is reported exactly when that field's rule fails: title under 5, description under 10, selection missing, YAML under 20, and, under the sentinel, a new name absent or of at most 3 characters. No field is reported twice. The list is empty exactly when the schema accepts the form. |
| TemplateForm.NewCategoryNameIgnoredUnlessCreating | apps/web/src/zod/ScaffolderZod.ts:17-29 | When the selection is not the sentinel, any value of `newCategoryName`, absent included, leaves the verdict and the issue list unchanged. |
| TemplateForm.CreatingNewNeedsName | apps/web/src/zod/ScaffolderZod.ts:22-34 | Under the sentinel, the form is accepted exactly when the other field rules hold and the new name is present with at least 4 characters. |
| TemplateForm.AnySelectionPasses | apps/web/src/zod/ScaffolderZod.ts:13-15 | Any present selection, the empty string included, raises no issue on `categorySelection`. |
| Catalogue.CategoriesDistinct | apps/web/src/pages/scaffolder/MockTemplates.ts:2-9 | There are six fixed categories, pairwise distinct. |
| Catalogue.MockTemplatesFollowCategories | apps/web/src/pages/scaffolder/MockTemplates.ts:21-142 | There are as many built-in templates as categories, and the i-th template belongs to the i-th category. |
| Catalogue.MockTemplateIdsDistinct | apps/web/src/pages/scaffolder/MockTemplates.ts:21-142 | The built-in ids are `t1` to `t6`, pairwise distinct, so they are safe as list keys. |
| Catalogue.OnePerCategory | apps/web/src/pages/scaffolder/MockTemplates.ts:19-21 | Templates that follow distinct categories position by position put exactly one template in each of those categories. |
| Catalogue.MockTemplatesOnePerCategory | apps/web/src/pages/scaffolder/MockTemplates.ts:19-142 | Every fixed category holds exactly one built-in template. |
| Text.LowerIdempotent | apps/web/src/pages/scaffolder/ScaffolderPage.tsx:100-104 | Lower-casing twice is the same as lower-casing once. |
| Text.LowerHasNoUpper | apps/web/src/pages/scaffolder/ScaffolderPage.tsx:100-104 | A lower-cased string holds no ASCII capital letter. |
| Text.ContainsIffOccurs | apps/web/src/pages/scaffolder/ScaffolderPage.tsx:102-103 | `includes` holds exactly when the part occurs at some index of the string. |
| Text.ContainsEmpty | apps/web/src/pages/scaffolder/ScaffolderPage.tsx:102-103 | Every string includes the empty string. |
| Text.Filter | apps/web/src/pages/scaffolder/ScaffolderPage.tsx:100-109 | The result is no longer than the input. It holds only input elements that the test accepts, and every accepted input element. |
| Text.FilterCounts | apps/web/src/pages/scaffolder/ScaffolderPage.tsx:100-109 | A filter keeps each accepted element exactly as many times as it occurs in the input, and drops every rejected one. |
| Text.FilterIsSubsequence | apps/web/src/pages/scaffolder/ScaffolderPage.tsx:100-104 | A filter's result is an order-preserving subsequence of its input. |
| Text.FilterKeepsAll | apps/web/src/pages/scaffolder/ScaffolderPage.tsx:100-104 | A filter that accepts every element returns its input unchanged. |
| Text.NatToString | apps/web/src/pages/gitops/GitOpsPage.tsx:138 | The decimal form of a natural number is non-empty, made of digits only, and has no leading zero. |
| Text.IntToStringRoundTrip | apps/web/src/pages/gitops/GitOpsPage.tsx:138 | Reading back the decimal string of an integer id, with its sign, gives the id. |
| Text.IntToStringInjective | apps/web/src/pages/gitops/GitOpsPage.tsx:138 | Two ids have the same decimal string exactly when they are equal. |
| Scaffolder.AcceptedFinalCategory | apps/web/src/pages/scaffolder/ScaffolderPage.tsx:81-89 | An accepted form always resolves to a category. When creating, it is the typed name, of at least 4 characters. Otherwise it is the chosen option, which is not the sentinel. |
| Scaffolder.CreatedAfterSubmit | apps/web/src/pages/scaffolder/ScaffolderPage.tsx:92-95 | The old session list is kept as a prefix. One entry, the new name, is appended, without de-duplication, exactly when the sentinel is selected and the name is present and non-empty. |
| Scaffolder.AcceptedNewCategoryIsRecorded | apps/web/src/pages/scaffolder/ScaffolderPage.tsx:87-95 | Submitting an accepted form that creates a category always appends the resolved category name. |
| Scaffolder.DefaultValuesRejected | apps/web/src/pages/scaffolder/ScaffolderPage.tsx:72-77 | The form's default values are rejected on title, description, selection and YAML, in that order. |
| Scaffolder.CategoryOptions | apps/web/src/pages/scaffolder/ScaffolderPage.tsx:292-312 | The dropdown lists the fixed categories in order, then this session's categories in insertion order, then the sentinel last. |
| Scaffolder.SentinelOnlyLast | apps/web/src/pages/scaffolder/ScaffolderPage.tsx:293-312 | No option before the last one switches the form to creating a new category, unless a session category was itself named `create_new_category`. |
| Scaffolder.FilterTemplates | apps/web/src/pages/scaffolder/ScaffolderPage.tsx:100-104 | The search keeps a template exactly when its lower-cased title or category includes the lower-cased term, as many times as it occurs. The result is an order-preserving subsequence. |
| Scaffolder.EmptySearchKeepsAll | apps/web/src/pages/scaffolder/ScaffolderPage.tsx:100-104 | An empty search term keeps every template, in order. |
| Scaffolder.SearchIgnoresTermCase | apps/web/src/pages/scaffolder/ScaffolderPage.tsx:100-104 | Lower-casing the term first does not change the search result. |
| Scaffolder.GroupByCategory | apps/web/src/pages/scaffolder/ScaffolderPage.tsx:107-113 | The record has a key exactly for each listed category. Each key holds exactly the filtered templates of that category, in filtered order. |
| Scaffolder.TallyIsLength | apps/web/src/pages/scaffolder/ScaffolderPage.tsx:107-113 | Over distinct categories that cover every template, the per-category counts add up to the number of templates. |
| Scaffolder.GroupSizesSumToFiltered | apps/web/src/pages/scaffolder/ScaffolderPage.tsx:107-113 | The group sizes over the fixed categories sum to the number of filtered templates. |
| Scaffolder.NoResultsIffNoSection | apps/web/src/pages/scaffolder/ScaffolderPage.tsx:148-217 | The "no results" message shows exactly when no category section renders. A section renders only when its group is non-empty. |
| Scaffolder.EmptySearchShowsOnePerCategory | apps/web/src/pages/scaffolder/ScaffolderPage.tsx:100-113 | With an empty search over the built-in layout, every category section shows exactly one template. |
| Scaffolder.ScaffolderPage.FilteredTemplates | apps/web/src/pages/scaffolder/ScaffolderPage.tsx:100-104 | The marketplace lists exactly the built-in templates that match the current search, in catalogue order, and all of them when the search box is empty. |
| Scaffolder.ScaffolderPage.Options | apps/web/src/pages/scaffolder/ScaffolderPage.tsx:292-312 | Every fixed category and every category created this session can be chosen, and the last option asks for a new category. |
| Scaffolder.EmptySearchPageListsCatalogue | apps/web/src/pages/scaffolder/ScaffolderPage.tsx:100-113 | With an empty search box the page lists the whole built-in catalogue, and each fixed category's section holds exactly one template. |
| Scaffolder.ScaffolderPage.constructor | apps/web/src/pages/scaffolder/ScaffolderPage.tsx:64-78 | The page starts with an empty search, no session categories and the default form values. |
| Scaffolder.ScaffolderPage.SetSearchTerm | apps/web/src/pages/scaffolder/ScaffolderPage.tsx:136-141 | Typing in the search box replaces the term and nothing else. |
| Scaffolder.ScaffolderPage.EditForm | apps/web/src/pages/scaffolder/ScaffolderPage.tsx:240-369 | Editing the inputs replaces the form's values and nothing else. |
| Scaffolder.ScaffolderPage.Submit | apps/web/src/pages/scaffolder/ScaffolderPage.tsx:84-97 | A rejected form reports its issues and changes nothing. An accepted form is filed under its final category, updates the session list as `CreatedAfterSubmit` says and resets to the defaults. Existing session entries are never altered. A newly created category is then among the dropdown's options. |
| GitOps.MatchPullsRoute | apps/web/src/pages/gitops/GitOpsPage.tsx:119-120 | Whatever owner and repository the route pattern `/api/github/repos/:owner/:repo/pulls` reads from a URL, as one-segment parameters, are single path segments, and that URL is exactly the one built from them. |
| GitOps.PullsUrlMatchesRoute | apps/web/src/pages/gitops/GitOpsPage.tsx:119-120 | The URL built from an owner and a name is matched by the route pattern, which reads back the same owner and name. |
| GitOps.FindRepo | apps/web/src/pages/gitops/GitOpsPage.tsx:137-140 | Returns the first repository whose id string equals the value, or nothing when none does. |
| GitOps.FindListedRepo | apps/web/src/pages/gitops/GitOpsPage.tsx:137-140 | Choosing a listed repository's id finds a repository with that id, no later in the list. It finds exactly that one when ids are unique. |
| GitOps.GitOpsPage.constructor | apps/web/src/pages/gitops/GitOpsPage.tsx:82-88 | Initially nothing is listed or selected, there are no PRs, PRs are not loading and repositories are loading. |
| GitOps.GitOpsPage.FinishRepoFetch | apps/web/src/pages/gitops/GitOpsPage.tsx:91-110 | A loaded list replaces `repos` and selects its first entry when it is non-empty; the selection stays empty otherwise. A failure keeps both. `isReposLoading` ends false in every case. |
| GitOps.GitOpsPage.HandleRepoChange | apps/web/src/pages/gitops/GitOpsPage.tsx:137-140 | Selects the first repository with the given id string. An unknown id leaves the selection unchanged. The selection stays among the listed repositories. |
| GitOps.GitOpsPage.StartPrFetch | apps/web/src/pages/gitops/GitOpsPage.tsx:113-120 | With no repository selected, nothing happens and no URL is fetched. Otherwise `isPrsLoading` becomes true and the selected repository's pulls URL is fetched. |
| GitOps.GitOpsPage.FinishPrFetch | apps/web/src/pages/gitops/GitOpsPage.tsx:121-131 | Loaded data replaces `prs` and a failure clears it. `isPrsLoading` ends false in every case. |
| GitOps.GitOpsPage.Panel | apps/web/src/pages/gitops/GitOpsPage.tsx:230-313 | The spinner shows exactly while loading. The empty message shows exactly when not loading and there are no PRs. Otherwise the table shows, with the PRs as rows. |
| GitOps.GitOpsPage.Body | apps/web/src/pages/gitops/GitOpsPage.tsx:210-344 | The tabs render exactly when a repository is selected, for that repository, with the current panel. |
| GitOps.Mount | apps/web/src/pages/gitops/GitOpsPage.tsx:90-134 | After mounting, a PR fetch starts, for the first repository, exactly when a non-empty list was loaded. The tabs then show with the spinner. |

## Left out

- Rendering is not modelled: JSX, styling, icons, dialogs and tabs. Only what decides which view shows is kept.
- GitOpsPage2.tsx, the dashboard, analytics, layout and router files and the mock-data constant files are not part of this model. They hold no behaviour beyond presentation and constants.
- Network I/O is not modelled: `fetch`, `res.json()` and the `VITE_API_BASE_URL` lookup. The base URL is a constructor parameter. Fetch results are `FetchOutcome` inputs. A non-ok response and a thrown exception are handled the same way.
- The fixed repository-list URL (`/api/github/repos` below the base) is not modelled. Only the pull-request URL is.
- Effect scheduling and interleavings are not modelled. This includes a PR response that arrives after the selection changed. Each effect body is one atomic transition, or two for the PR fetch so that "loading" is observable.
- GitOps.GitOpsPage.FinishRepoFetch requires `isReposLoading`: the mount effect has an empty dependency list, so it runs once, while the flag still has its initial value.
- The repository dropdown is disabled while repositories load. `HandleRepoChange` does not rely on this: it finds nothing in the empty list.
- Ids are unbounded integers. JavaScript's loss of precision above 2^53 is not modelled, nor are non-integer ids.
- Lower-casing covers ASCII only, with no Unicode case folding.
- String lengths count Unicode scalar values, not the UTF-16 code units that JavaScript counts.
- The zod and react-hook-form internals are not modelled: message texts, issue aggregation and aborted versus dirty parsing. Only acceptance and the field each issue attaches to are modelled. Running the refine rule unconditionally yields the same fields, since a missing selection never meets the sentinel test.
- `onSubmit` reads `isCreatingNew` from the watched selection. The model takes it from the submitted form values, which hold the same selection.
- The select shows its previous choice after a reset (`defaultValue` on an uncontrolled select). The form state itself has no selection.
- `alert` and `console.log`/`console.error` are side effects with no state and are not modelled.
- The server's category and template handlers are not part of this model: creation, listing and deletion, uniqueness and not-found errors. Neither is the database layer.
- Duplicate session category names are not modelled as an error. They give duplicate React keys in the dropdown, and React only warns about those.
