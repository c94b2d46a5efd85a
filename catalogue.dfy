/** The `tools` catalogue that `tools/list` returns: 23 tools, each with
    a JSON-Schema-like `inputSchema`. The array in src/index.ts (the stdio
    server) and the one in lambda/handler.js (the Lambda handler) list the
    same tools, in the same order, with the same argument keys, types,
    enumerations and `required` lists; only their description texts,
    which this model leaves out, are worded differently. */
module Catalogue {
  import opened Json

  /** A property's `type`: `'string'`, or `'array'` with string `items`. */
  datatype PropertyKind = TextValue | TextList

  /** One entry of `inputSchema.properties`; `allowed` is its `enum`. */
  datatype Property = Property(key: string, kind: PropertyKind, allowed: Option<seq<string>>)

  /** `inputSchema` (always of `type: 'object'`); tools without required
      arguments have no `required` list at all. */
  datatype Schema = Schema(properties: seq<Property>, required: Option<seq<string>>)

  datatype Tool = Tool(name: string, inputSchema: Schema)

  function TextProperty(key: string): Property {
    Property(key, TextValue, None)
  }

  function EnumProperty(key: string, allowed: seq<string>): Property {
    Property(key, TextValue, Some(allowed))
  }

  function TextListProperty(key: string): Property {
    Property(key, TextList, None)
  }

  /** The `tools` array, in source order. */
  const Tools: seq<Tool> := [
    // the basic tools
    Tool("echo", Schema([
      TextProperty("message")],
      Some(["message"]))),
    Tool("get_time", Schema([], None)),
    // the GitHub tools
    Tool("github_get_user", Schema([], None)),
    Tool("github_get_repos", Schema([], None)),
    Tool("github_get_repo", Schema([
      TextProperty("owner"),
      TextProperty("repo")],
      Some(["owner", "repo"]))),
    Tool("github_get_issues", Schema([
      TextProperty("owner"),
      TextProperty("repo"),
      EnumProperty("state", ["open", "closed", "all"])],
      Some(["owner", "repo"]))),
    Tool("github_create_issue", Schema([
      TextProperty("owner"),
      TextProperty("repo"),
      TextProperty("title"),
      TextProperty("body"),
      TextListProperty("labels")],
      Some(["owner", "repo", "title"]))),
    Tool("github_get_pull_requests", Schema([
      TextProperty("owner"),
      TextProperty("repo"),
      EnumProperty("state", ["open", "closed", "all"])],
      Some(["owner", "repo"]))),
    Tool("github_create_pull_request", Schema([
      TextProperty("owner"),
      TextProperty("repo"),
      TextProperty("title"),
      TextProperty("head"),
      TextProperty("base"),
      TextProperty("body")],
      Some(["owner", "repo", "title", "head", "base"]))),
    Tool("github_get_commits", Schema([
      TextProperty("owner"),
      TextProperty("repo"),
      TextProperty("branch")],
      Some(["owner", "repo"]))),
    Tool("github_get_file_content", Schema([
      TextProperty("owner"),
      TextProperty("repo"),
      TextProperty("path"),
      TextProperty("branch")],
      Some(["owner", "repo", "path"]))),
    Tool("github_search_repos", Schema([
      TextProperty("query"),
      EnumProperty("sort", ["stars", "forks", "updated"])],
      Some(["query"]))),
    Tool("github_get_releases", Schema([
      TextProperty("owner"),
      TextProperty("repo")],
      Some(["owner", "repo"]))),
    Tool("github_get_repo_stats", Schema([
      TextProperty("owner"),
      TextProperty("repo")],
      Some(["owner", "repo"]))),
    Tool("github_get_user_by_username", Schema([
      TextProperty("username")],
      Some(["username"]))),
    Tool("github_get_user_repos", Schema([
      TextProperty("username")],
      Some(["username"]))),
    // the GitLab tools
    Tool("gitlab_get_user", Schema([], None)),
    Tool("gitlab_get_projects", Schema([], None)),
    Tool("gitlab_get_project", Schema([
      TextProperty("projectId")],
      Some(["projectId"]))),
    Tool("gitlab_get_issues", Schema([
      TextProperty("projectId"),
      EnumProperty("state", ["opened", "closed", "all"])],
      Some(["projectId"]))),
    Tool("gitlab_create_issue", Schema([
      TextProperty("projectId"),
      TextProperty("title"),
      TextProperty("description"),
      TextListProperty("labels")],
      Some(["projectId", "title"]))),
    Tool("gitlab_get_merge_requests", Schema([
      TextProperty("projectId"),
      EnumProperty("state", ["opened", "closed", "merged", "all"])],
      Some(["projectId"]))),
    Tool("gitlab_create_merge_request", Schema([
      TextProperty("projectId"),
      TextProperty("title"),
      TextProperty("sourceBranch"),
      TextProperty("targetBranch"),
      TextProperty("description")],
      Some(["projectId", "title", "sourceBranch", "targetBranch"])))
  ]

  /** The keys a tool's schema lists as `required`. */
  function Required(t: Tool): seq<string> {
    match t.inputSchema.required
    case None => []
    case Some(keys) => keys
  }

  /** The keys of a tool's declared properties. */
  function Keys(t: Tool): seq<string> {
    seq(|t.inputSchema.properties|, j requires 0 <= j < |t.inputSchema.properties| =>
      t.inputSchema.properties[j].key)
  }

  /** The schema declares the property `key`, and `value` is one of its
      `enum` values when it has an `enum`. */
  predicate Accepts(t: Tool, key: string, value: string) {
    exists j :: 0 <= j < |t.inputSchema.properties| && t.inputSchema.properties[j].key == key
      && (t.inputSchema.properties[j].allowed.Some? ==> value in t.inputSchema.properties[j].allowed.value)
  }

  /** The names of a sequence of tools, in order. */
  function Names(tools: seq<Tool>): seq<string> {
    seq(|tools|, i requires 0 <= i < |tools| => tools[i].name)
  }

  /** No name occurs twice. */
  predicate Distinct(names: seq<string>) {
    forall i, j :: 0 <= i < j < |names| ==> names[i] != names[j]
  }

  /** The catalogue has 23 entries and no two share a name. */
  lemma ToolNamesDistinct()
    ensures |Tools| == 23
    ensures Distinct(Names(Tools))
  {
    NamesDistinctFrom0();
    NamesDistinctFrom8();
    NamesDistinctFrom16();
  }

  // The pairs of distinct names, split by the place of the first name
  // to keep each proof small.

  lemma NamesDistinctFrom0()
    ensures forall i, j :: 0 <= i < 8 && i < j < |Tools| ==> Tools[i].name != Tools[j].name
  {
  }

  lemma NamesDistinctFrom8()
    ensures forall i, j :: 8 <= i < 16 && i < j < |Tools| ==> Tools[i].name != Tools[j].name
  {
  }

  lemma NamesDistinctFrom16()
    ensures forall i, j :: 16 <= i < j < |Tools| ==> Tools[i].name != Tools[j].name
  {
  }

  /** A tool whose required keys are all declared properties. */
  predicate RequiresDeclaredKeys(t: Tool) {
    forall k :: k in Required(t) ==> k in Keys(t)
  }

  /** Every key a schema lists as required is one of its properties. */
  lemma RequiredKeysAreDeclared()
    ensures forall i :: 0 <= i < |Tools| ==> RequiresDeclaredKeys(Tools[i])
  {
    RequiredKeysDeclaredFrom0();
    RequiredKeysDeclaredFrom8();
    RequiredKeysDeclaredFrom16();
  }

  lemma RequiredKeysDeclaredFrom0()
    ensures forall i :: 0 <= i < 8 ==> RequiresDeclaredKeys(Tools[i])
  {
    forall i | 0 <= i < 8 ensures RequiresDeclaredKeys(Tools[i]) {
      assert Required(Tools[i]) <= Keys(Tools[i]);
    }
  }

  lemma RequiredKeysDeclaredFrom8()
    ensures forall i :: 8 <= i < 16 ==> RequiresDeclaredKeys(Tools[i])
  {
    forall i | 8 <= i < 16 ensures RequiresDeclaredKeys(Tools[i]) {
      assert Required(Tools[i]) <= Keys(Tools[i]);
    }
  }

  lemma RequiredKeysDeclaredFrom16()
    ensures forall i :: 16 <= i < |Tools| ==> RequiresDeclaredKeys(Tools[i])
  {
    forall i | 16 <= i < |Tools| ensures RequiresDeclaredKeys(Tools[i]) {
      assert Required(Tools[i]) <= Keys(Tools[i]);
    }
  }
}
