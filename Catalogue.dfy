/**
 * The scaffolder's marketplace data: the fixed category taxonomy, the
 * template record, and the built-in templates (one per category).
 */
module Catalogue {
  import opened Text

  /** The fixed categories, in display order. */
  const CATEGORIES: seq<string> := [
    "Application/Project Root",
    "Component/Feature Structure",
    "Configuration & Build Tools",
    "Testing Frameworks",
    "Documentation & Metadata",
    "Identity & Access Control"
  ]

  /** A template's category is one of the fixed categories (the literal union type). */
  type CategoryName = c: string | c in CATEGORIES witness "Application/Project Root"

  /** A scaffolding blueprint: descriptive metadata plus an opaque YAML document. */
  datatype Template = Template(
    id: string,
    title: string,
    description: string,
    category: CategoryName,
    yaml: string)

  /** The built-in templates, one per category, in category order. */
  const MOCK_TEMPLATES: seq<Template> := [
    Template(
      id := "t1",
      title := "Node.js Express Microservice Root",
      description := "Scaffolds a full TypeScript Node.js service with Dockerfile and package.json structures.",
      category := "Application/Project Root",
      yaml := "apiVersion: scaffolder.devcentral.io/v1alpha1\nkind: Template\nmetadata:\n  name: node-express-root\nspec:\n  owner: backend-team\n  type: service\n  parameters:\n    - title: Service Name\n      required: true\n      type: string\n  steps:\n    - id: fetch-base\n      action: fetch:template\n      input:\n        url: ./skeleton"),
    Template(
      id := "t2",
      title := "React Functional Component (Tsx)",
      description := "Standardized React component structure with associated test file and CSS module.",
      category := "Component/Feature Structure",
      yaml := "apiVersion: scaffolder.devcentral.io/v1alpha1\nkind: Template\nmetadata:\n  name: react-component\nspec:\n  type: component\n  parameters:\n    - title: Component Name\n      type: string\n  steps:\n    - action: fetch:template\n      input:\n        targetPath: ./src/components/{{ componentName }}"),
    Template(
      id := "t3",
      title := "GitHub Actions CI Pipeline",
      description := "Standard CI workflow for build, lint, and test stages on pull requests.",
      category := "Configuration & Build Tools",
      yaml := "name: Node CI\non: [push, pull_request]\njobs:\n  build:\n    runs-on: ubuntu-latest\n    steps:\n    - uses: actions/checkout@v3\n    - name: Use Node.js\n      uses: actions/setup-node@v3\n    - run: npm ci\n    - run: npm run build --if-present\n    - run: npm test"),
    Template(
      id := "t4",
      title := "Vitest Unit Testing Setup",
      description := "Base configuration for Vitest with coverage reporting enabled.",
      category := "Testing Frameworks",
      yaml := "// vitest.config.ts\nimport { defineConfig } from 'vitest/config'\n\nexport default defineConfig({\n  test: {\n    globals: true,\n    environment: 'node',\n    coverage: {\n      provider: 'v8',\n      reporter: ['text', 'json', 'html'],\n    },\n  },\n})"),
    Template(
      id := "t5",
      title := "OpenAPI (Swagger) Spec Skeleton",
      description := "Basic structure for defining RESTful APIs using OpenAPI 3.0 standard.",
      category := "Documentation & Metadata",
      yaml := "openapi: 3.0.0\ninfo:\n  title: Sample API\n  description: Optional multiline or single-line description in CommonMark or HTML.\n  version: 0.1.9\nservers:\n  - url: http://api.example.com/v1\npaths:\n  /users:\n    get:\n      summary: Returns a list of users.\n      responses:\n        '200':    # status code\n          description: A JSON array of user names"),
    Template(
      id := "t6",
      title := "Auth0 Integration Boilerplate",
      description := "Pre-configured setup for securing an Express API with Auth0 JWTs.",
      category := "Identity & Access Control",
      yaml := "// Middleware setup needed for Auth0\nimport { auth } from 'express-oauth2-jwt-bearer';\n\nconst jwtCheck = auth({\n  audience: 'https://my-api-identifier',\n  issuerBaseURL: 'https://dev-central-tenant.us.auth0.com/',\n  tokenSigningAlg: 'RS256'\n});\n\n// app.use(jwtCheck); // Apply to protected routes")
  ]

  /** The ids of a list of templates, in order. */
  function Ids(ts: seq<Template>): (r: seq<string>)
    ensures |r| == |ts|
    ensures forall i :: 0 <= i < |ts| ==> r[i] == ts[i].id
  {
    seq(|ts|, i requires 0 <= i < |ts| => ts[i].id)
  }

  /** The test `t.category === c` used to group templates. */
  function InCategory(c: string): Template -> bool
  {
    (t: Template) => t.category == c
  }

  /** Six categories, no two alike. */
  lemma CategoriesDistinct()
    ensures |CATEGORIES| == 6
    ensures Distinct(CATEGORIES)
  {
  }

  /** The i-th built-in template belongs to the i-th category. */
  lemma MockTemplatesFollowCategories()
    ensures |MOCK_TEMPLATES| == |CATEGORIES|
    ensures forall i :: 0 <= i < |MOCK_TEMPLATES| ==> MOCK_TEMPLATES[i].category == CATEGORIES[i]
  {
  }

  /** The template ids (used as list keys when rendering) are pairwise distinct. */
  lemma MockTemplateIdsDistinct()
    ensures Ids(MOCK_TEMPLATES) == ["t1", "t2", "t3", "t4", "t5", "t6"]
    ensures Distinct(Ids(MOCK_TEMPLATES))
  {
  }

  /**
   * When the templates follow a list of distinct categories position by
   * position, each of those categories holds exactly one template.
   */
  lemma {:induction false} OnePerCategory(ts: seq<Template>, cats: seq<string>, c: string)
    requires |ts| == |cats|
    requires forall i :: 0 <= i < |ts| ==> ts[i].category == cats[i]
    requires Distinct(cats) && c in cats
    ensures |Filter(InCategory(c), ts)| == 1
    decreases |ts|
  {
    if ts[0].category == c {
      assert c !in cats[1..];
      FilterKeepsNone(InCategory(c), ts[1..]);
    } else {
      OnePerCategory(ts[1..], cats[1..], c);
    }
  }

  /** Every fixed category holds exactly one built-in template. */
  lemma MockTemplatesOnePerCategory(c: CategoryName)
    ensures |Filter(InCategory(c), MOCK_TEMPLATES)| == 1
  {
    CategoriesDistinct();
    MockTemplatesFollowCategories();
    OnePerCategory(MOCK_TEMPLATES, CATEGORIES, c);
  }
}
