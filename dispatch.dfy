/** The `tools/call` handler shared, case for case, by src/index.ts and
    lambda/handler.js: a `switch` on the tool name whose cases check the
    required arguments, fill in defaults for optional ones, await one
    GitHub or GitLab wrapper and format its answer; a `catch` around the
    whole switch turns every failure into an `isError` result.

    The model splits one case into the decision it makes (`Dispatch`:
    reject, answer directly, or call which wrapper with which values
    under which heading) and the effect of running it (`Perform`), then
    wraps it as the `catch` does (`CallTool`). The wrappers themselves,
    `JSON.stringify`, the clock and number formatting are the host's
    (`Host`). */
module ToolCall {
  import opened Json
  import opened Catalogue

  /** Which of the two servers: src/index.ts or lambda/handler.js. */
  datatype Server = Stdio | Http

  /** A text that the two servers word differently. */
  function ByServer(server: Server, stdio: string, http: string): string {
    if server == Stdio then stdio else http
  }

  /** A call of one of the wrappers of src/github.ts and src/gitlab.ts,
      with the argument values the switch passes (unchecked casts such as
      `as string` have no run-time effect). */
  datatype ApiCall =
    | GitHubCurrentUser
    | GitHubUserRepos
    | GitHubRepo(owner: Value, repo: Value)
    | GitHubRepoIssues(owner: Value, repo: Value, state: Value)
    | NewGitHubIssue(owner: Value, repo: Value, title: Value, body: Value, labels: Value)
    | GitHubPullRequests(owner: Value, repo: Value, state: Value)
    | NewGitHubPullRequest(owner: Value, repo: Value, title: Value, head: Value, base: Value, body: Value)
    | GitHubCommits(owner: Value, repo: Value, branch: Value)
    | GitHubFileContent(owner: Value, repo: Value, path: Value, branch: Value)
    | GitHubRepoSearch(query: Value, sort: Value)
    | GitHubReleases(owner: Value, repo: Value)
    | GitHubRepoStats(owner: Value, repo: Value)
    | GitHubUser(username: Value)
    | GitHubUserReposByUsername(username: Value)
    | GitLabCurrentUser
    | GitLabUserProjects
    | GitLabProject(projectId: Value)
    | GitLabProjectIssues(projectId: Value, state: Value)
    | NewGitLabIssue(projectId: Value, title: Value, description: Value, labels: Value)
    | GitLabMergeRequests(projectId: Value, state: Value)
    | NewGitLabMergeRequest(projectId: Value, title: Value, sourceBranch: Value,
                               targetBranch: Value, description: Value)

  /** An awaited wrapper call either resolves with a payload or rejects;
      `message` is `error.message` for an `Error`, `String(error)` otherwise. */
  datatype ApiReply = Resolved(payload: Value) | Rejected(message: string)

  /** What the handlers take from their environment. */
  datatype Host = Host(
    api: ApiCall -> ApiReply,       // the GitHub and GitLab wrappers
    stringify: Value -> string,     // JSON.stringify(payload, null, 2)
    numberText: real -> string,     // String(n) for a number
    clock: string,                  // new Date().toISOString()
    conversionError: string)        // message of the TypeError `${v}` throws

  /** The decision one `case` of the switch makes. */
  datatype Action =
    | UnknownTool                              // the `default` case
    | Reject(message: string)                  // a required argument is missing
    | Reply(text: string)                      // answered without a wrapper
    | Invoke(call: ApiCall, heading: string)   // await `call`, show its payload under `heading`
    | Unconvertible                            // `${v}` of a value it cannot convert

  /** The `case` labels of the switch. */
  datatype ToolId =
    | Echo
    | GetTime
    | GitHubGetUser
    | GitHubGetRepos
    | GitHubGetRepo
    | GitHubGetIssues
    | GitHubCreateIssue
    | GitHubGetPullRequests
    | GitHubCreatePullRequest
    | GitHubGetCommits
    | GitHubGetFileContent
    | GitHubSearchRepos
    | GitHubGetReleases
    | GitHubGetRepoStats
    | GitHubGetUserByUsername
    | GitHubGetUserRepos
    | GitLabGetUser
    | GitLabGetProjects
    | GitLabGetProject
    | GitLabGetIssues
    | GitLabCreateIssue
    | GitLabGetMergeRequests
    | GitLabCreateMergeRequest

  /** The `case` labels of the switch, in source order. */
  const CaseLabels: seq<string> := [
    "echo", "get_time", "github_get_user",
    "github_get_repos", "github_get_repo", "github_get_issues",
    "github_create_issue", "github_get_pull_requests", "github_create_pull_request",
    "github_get_commits", "github_get_file_content", "github_search_repos",
    "github_get_releases", "github_get_repo_stats", "github_get_user_by_username",
    "github_get_user_repos", "gitlab_get_user", "gitlab_get_projects",
    "gitlab_get_project", "gitlab_get_issues", "gitlab_create_issue",
    "gitlab_get_merge_requests", "gitlab_create_merge_request"
  ]

  /** The case each label opens, in the same order. */
  const CaseIds: seq<ToolId> := [
    Echo, GetTime, GitHubGetUser,
    GitHubGetRepos, GitHubGetRepo, GitHubGetIssues,
    GitHubCreateIssue, GitHubGetPullRequests, GitHubCreatePullRequest,
    GitHubGetCommits, GitHubGetFileContent, GitHubSearchRepos,
    GitHubGetReleases, GitHubGetRepoStats, GitHubGetUserByUsername,
    GitHubGetUserRepos, GitLabGetUser, GitLabGetProjects,
    GitLabGetProject, GitLabGetIssues, GitLabCreateIssue,
    GitLabGetMergeRequests, GitLabCreateMergeRequest
  ]

  /** The place of the first of `labels` from place `j` on that is `=== s`. */
  function FirstMatch(labels: seq<string>, s: string, j: nat): (r: Option<nat>)
    ensures r.Some? ==> j <= r.value < |labels| && labels[r.value] == s
    decreases |labels| - j
  {
    if j >= |labels| then None
    else if labels[j] == s then Some(j)
    else FirstMatch(labels, s, j + 1)
  }

  /** Which case `switch (name)` enters: the first whose label is
      `=== name` (never a label for a non-string); `None` is the
      `default` case. */
  function CaseOf(name: Value): (r: Option<ToolId>)
    ensures r.None? <==> !(name.Str? && name.s in Names(Tools))
  {
    LabelsAreCatalogueNames();
    if !name.Str? then None
    else
      FirstMatchIsFirst(CaseLabels, name.s, 0);
      assert CaseLabels[0..] == CaseLabels;
      match FirstMatch(CaseLabels, name.s, 0)
      case None => None
      case Some(j) => Some(CaseIds[j])
  }

  /** The switch of `tools/call`: it falls through to `default` exactly
      for names that are not in the catalogue, since every case ends in a
      check failure, a reply or a wrapper call. */
  function Dispatch(server: Server, host: Host, name: Value, args: Value): (r: Action)
    ensures r.UnknownTool? <==> !(name.Str? && name.s in Names(Tools))
  {
    match CaseOf(name)
    case None => UnknownTool
    case Some(id) => RunCase(server, host, id, args)
  }

  /** The body of one case: the argument check, the defaults, the call.
      A case never falls through, and only `echo` converts an argument to
      text. */
  function RunCase(server: Server, host: Host, id: ToolId, args: Value): (r: Action)
    ensures !r.UnknownTool?
    ensures r.Unconvertible? ==> id == Echo && !Convertible(Prop(args, "message"))
  {
    match id
    case Echo =>
      if !HasKeys(args, ["message"]) then Reject("Parámetro \"message\" requerido para la herramienta echo")
      else if !Convertible(Prop(args, "message")) then Unconvertible
      else Reply("Echo: " + Text(host.numberText, Prop(args, "message")))
    case GetTime =>
      Reply("Hora actual: " + host.clock)
    case GitHubGetUser =>
      Invoke(GitHubCurrentUser, "Usuario de GitHub")
    case GitHubGetRepos =>
      Invoke(GitHubUserRepos, "Repositorios del usuario")
    case GitHubGetRepo =>
      if !HasKeys(args, ["owner", "repo"]) then
        Reject("Parámetros \"owner\" y \"repo\" requeridos para github_get_repo")
      else Invoke(GitHubRepo(Prop(args, "owner"), Prop(args, "repo")), "Información del repositorio")
    case GitHubGetIssues =>
      if !HasKeys(args, ["owner", "repo"]) then
        Reject("Parámetros \"owner\" y \"repo\" requeridos para github_get_issues")
      else
        var state := OrElse(Prop(args, "state"), Str("open"));
        Invoke(GitHubRepoIssues(Prop(args, "owner"), Prop(args, "repo"), state), "Issues del repositorio")
    case GitHubCreateIssue =>
      if !HasKeys(args, ["owner", "repo", "title"]) then
        Reject("Parámetros \"owner\", \"repo\" y \"title\" requeridos para github_create_issue")
      else
        Invoke(NewGitHubIssue(Prop(args, "owner"), Prop(args, "repo"), Prop(args, "title"),
                                 Prop(args, "body"), Prop(args, "labels")),
               "Issue creado")
    case GitHubGetPullRequests =>
      if !HasKeys(args, ["owner", "repo"]) then
        Reject("Parámetros \"owner\" y \"repo\" requeridos para github_get_pull_requests")
      else
        var prState := OrElse(Prop(args, "state"), Str("open"));
        Invoke(GitHubPullRequests(Prop(args, "owner"), Prop(args, "repo"), prState),
               "Pull Requests del repositorio")
    case GitHubCreatePullRequest =>
      if !HasKeys(args, ["owner", "repo", "title", "head", "base"]) then
        Reject("Parámetros \"owner\", \"repo\", \"title\", \"head\" y \"base\" requeridos para github_create_pull_request")
      else
        Invoke(NewGitHubPullRequest(Prop(args, "owner"), Prop(args, "repo"), Prop(args, "title"),
                                       Prop(args, "head"), Prop(args, "base"), Prop(args, "body")),
               "Pull Request creado")
    case GitHubGetCommits =>
      if !HasKeys(args, ["owner", "repo"]) then
        Reject("Parámetros \"owner\" y \"repo\" requeridos para github_get_commits")
      else
        var branch := OrElse(Prop(args, "branch"), Str("main"));
        Invoke(GitHubCommits(Prop(args, "owner"), Prop(args, "repo"), branch), "Commits del repositorio")
    case GitHubGetFileContent =>
      if !HasKeys(args, ["owner", "repo", "path"]) then
        Reject("Parámetros \"owner\", \"repo\" y \"path\" requeridos para github_get_file_content")
      else
        var fileBranch := OrElse(Prop(args, "branch"), Str("main"));
        Invoke(GitHubFileContent(Prop(args, "owner"), Prop(args, "repo"), Prop(args, "path"), fileBranch),
               "Contenido del archivo")
    case GitHubSearchRepos =>
      if !HasKeys(args, ["query"]) then
        Reject("Parámetro \"query\" requerido para github_search_repos")
      else
        var sort := OrElse(Prop(args, "sort"), Str("stars"));
        Invoke(GitHubRepoSearch(Prop(args, "query"), sort), "Resultados de búsqueda")
    case GitHubGetReleases =>
      if !HasKeys(args, ["owner", "repo"]) then
        Reject("Parámetros \"owner\" y \"repo\" requeridos para github_get_releases")
      else Invoke(GitHubReleases(Prop(args, "owner"), Prop(args, "repo")), "Releases del repositorio")
    case GitHubGetRepoStats =>
      if !HasKeys(args, ["owner", "repo"]) then
        Reject("Parámetros \"owner\" y \"repo\" requeridos para github_get_repo_stats")
      else Invoke(GitHubRepoStats(Prop(args, "owner"), Prop(args, "repo")), "Estadísticas del repositorio")
    case GitHubGetUserByUsername =>
      if !HasKeys(args, ["username"]) then
        Reject("Parámetro \"username\" requerido para github_get_user_by_username")
      else Invoke(GitHubUser(Prop(args, "username")), "Información del usuario")
    case GitHubGetUserRepos =>
      if !HasKeys(args, ["username"]) then
        Reject("Parámetro \"username\" requerido para github_get_user_repos")
      else Invoke(GitHubUserReposByUsername(Prop(args, "username")), "Repositorios del usuario")
    case GitLabGetUser =>
      Invoke(GitLabCurrentUser, "Usuario de GitLab")
    case GitLabGetProjects =>
      Invoke(GitLabUserProjects, "Proyectos de GitLab")
    case GitLabGetProject =>
      if !HasKeys(args, ["projectId"]) then
        Reject("Parámetro \"projectId\" requerido para gitlab_get_project")
      else
        Invoke(GitLabProject(Prop(args, "projectId")),
               ByServer(server, "Proyecto de GitLab", "Información del proyecto"))
    case GitLabGetIssues =>
      if !HasKeys(args, ["projectId"]) then
        Reject("Parámetro \"projectId\" requerido para gitlab_get_issues")
      else
        var gitlabState := OrElse(Prop(args, "state"), Str("opened"));
        Invoke(GitLabProjectIssues(Prop(args, "projectId"), gitlabState),
               ByServer(server, "Issues de GitLab", "Issues del proyecto"))
    case GitLabCreateIssue =>
      if !HasKeys(args, ["projectId", "title"]) then
        Reject("Parámetros \"projectId\" y \"title\" requeridos para gitlab_create_issue")
      else
        Invoke(NewGitLabIssue(Prop(args, "projectId"), Prop(args, "title"),
                                 Prop(args, "description"), Prop(args, "labels")),
               "Issue de GitLab creado")
    case GitLabGetMergeRequests =>
      if !HasKeys(args, ["projectId"]) then
        Reject("Parámetro \"projectId\" requerido para gitlab_get_merge_requests")
      else
        var mrState := OrElse(Prop(args, "state"), Str("opened"));
        Invoke(GitLabMergeRequests(Prop(args, "projectId"), mrState),
               ByServer(server, "Merge Requests de GitLab", "Merge Requests del proyecto"))
    case GitLabCreateMergeRequest =>
      if !HasKeys(args, ["projectId", "title", "sourceBranch", "targetBranch"]) then
        Reject("Parámetros \"projectId\", \"title\", \"sourceBranch\" y \"targetBranch\" requeridos para gitlab_create_merge_request")
      else
        Invoke(NewGitLabMergeRequest(Prop(args, "projectId"), Prop(args, "title"), Prop(args, "sourceBranch"),
                                        Prop(args, "targetBranch"), Prop(args, "description")),
               ByServer(server, "Merge Request de GitLab creado", "Merge Request creado"))
  }

  /** How the body of the `try` ends: returning a text, or throwing. */
  datatype Outcome = Done(text: string) | Thrown(message: string)

  /** Running the decision: awaiting the wrapper and formatting its payload. */
  function Perform(host: Host, name: Value, action: Action): (r: Outcome)
    ensures r.Done? <==> action.Reply? || (action.Invoke? && host.api(action.call).Resolved?)
    ensures action.Reject? ==> r == Thrown(action.message)
    ensures action.Reply? ==> r == Done(action.text)
    ensures action.Invoke? && host.api(action.call).Rejected? ==> r == Thrown(host.api(action.call).message)
    ensures action.Invoke? && r.Done? ==>
      r.text == action.heading + ":\n" + host.stringify(host.api(action.call).payload)
    ensures action.Unconvertible? || (action.UnknownTool? && !Convertible(name)) ==>
      r == Thrown(host.conversionError)
  {
    match action
    case UnknownTool =>
      if Convertible(name) then Thrown("Herramienta desconocida: " + Text(host.numberText, name))
      else Thrown(host.conversionError)
    case Unconvertible => Thrown(host.conversionError)
    case Reject(message) => Thrown(message)
    case Reply(text) => Done(text)
    case Invoke(call, heading) =>
      match host.api(call)
      case Resolved(payload) => Done(heading + ":\n" + host.stringify(payload))
      case Rejected(message) => Thrown(message)
  }

  /** An item `{ type: 'text', text }` of a result's `content`. */
  datatype Content = TextContent(text: string)

  /** A `tools/call` result; `isError == false` stands for a result
      without the `isError` key. */
  datatype CallResult = CallResult(content: seq<Content>, isError: bool)

  function ErrorPrefix(host: Host, name: Value): string
    requires Convertible(name)
  {
    "Error ejecutando " + Text(host.numberText, name) + ": "
  }

  /** The `tools/call` handler: the switch inside `try`, and the `catch`
      that reports any failure as one text item with `isError: true`.
      `None` is a handler that throws: a name `${name}` cannot convert
      fails the `default` case, and then the `catch`'s own template. */
  function CallTool(server: Server, host: Host, name: Value, args: Value): (r: Option<CallResult>)
    ensures r.None? <==> !Convertible(name)
    ensures r.Some? ==> |r.value.content| == 1
    ensures r.Some? ==> (r.value.isError <==> Perform(host, name, Dispatch(server, host, name, args)).Thrown?)
    ensures r.Some? && r.value.isError ==>
      r.value.content[0].text == ErrorPrefix(host, name) + Perform(host, name, Dispatch(server, host, name, args)).message
    ensures r.Some? && !r.value.isError ==>
      r.value.content[0].text == Perform(host, name, Dispatch(server, host, name, args)).text
  {
    if !Convertible(name) then None
    else
      match Perform(host, name, Dispatch(server, host, name, args))
      case Done(text) => Some(CallResult([TextContent(text)], false))
      case Thrown(message) => Some(CallResult([TextContent(ErrorPrefix(host, name) + message)], true))
  }

  /** The `tools/list` handler: the catalogue as declared, 23 tools with
      distinct names whose required keys are all declared properties. */
  function ListTools(): (r: seq<Tool>)
    ensures |r| == 23 && Distinct(Names(r))
    ensures forall i :: 0 <= i < |r| ==> RequiresDeclaredKeys(r[i])
  {
    ToolNamesDistinct();
    RequiredKeysAreDeclared();
    Tools
  }

  // ---------------------------------------------------------------------
  // The switch against the catalogue

  /** The search finds a label exactly when one from place `j` on is
      `s`, and no earlier one is. */
  lemma {:induction false} FirstMatchIsFirst(labels: seq<string>, s: string, j: nat)
    requires j <= |labels|
    ensures FirstMatch(labels, s, j).None? <==> s !in labels[j..]
    ensures FirstMatch(labels, s, j).Some? ==>
      forall l :: j <= l < FirstMatch(labels, s, j).value ==> labels[l] != s
    decreases |labels| - j
  {
    if j < |labels| {
      FirstMatchIsFirst(labels, s, j + 1);
      assert labels[j..] == [labels[j]] + labels[j + 1..];
    }
  }

  /** The switch has one case per catalogue entry, in catalogue order. */
  lemma LabelsAreCatalogueNames()
    ensures CaseLabels == Names(Tools)
    ensures |CaseIds| == |Tools|
  {
  }

  /** Among distinct labels, the search for the label at place `i` stops
      at place `i`. */
  lemma FirstMatchOfDistinct(labels: seq<string>, i: nat)
    requires Distinct(labels)
    requires i < |labels|
    ensures FirstMatch(labels, labels[i], 0) == Some(i)
  {
    FirstMatchIsFirst(labels, labels[i], 0);
    assert labels[i] in labels[0..];
  }

  /** The name at place `i` of the catalogue enters the case at place `i`:
      no earlier label repeats it, since the names are distinct. */
  lemma CaseOfListedName(i: nat)
    requires i < |Tools|
    ensures CaseOf(Str(Tools[i].name)) == Some(CaseIds[i])
  {
    LabelsAreCatalogueNames();
    ToolNamesDistinct();
    FirstMatchOfDistinct(CaseLabels, i);
  }

  /** The keys each case checks before it does anything else. */
  ghost function CaseRequires(id: ToolId): seq<string> {
    match id
    case Echo => ["message"]
    case GetTime => []
    case GitHubGetUser => []
    case GitHubGetRepos => []
    case GitHubGetRepo => ["owner", "repo"]
    case GitHubGetIssues => ["owner", "repo"]
    case GitHubCreateIssue => ["owner", "repo", "title"]
    case GitHubGetPullRequests => ["owner", "repo"]
    case GitHubCreatePullRequest => ["owner", "repo", "title", "head", "base"]
    case GitHubGetCommits => ["owner", "repo"]
    case GitHubGetFileContent => ["owner", "repo", "path"]
    case GitHubSearchRepos => ["query"]
    case GitHubGetReleases => ["owner", "repo"]
    case GitHubGetRepoStats => ["owner", "repo"]
    case GitHubGetUserByUsername => ["username"]
    case GitHubGetUserRepos => ["username"]
    case GitLabGetUser => []
    case GitLabGetProjects => []
    case GitLabGetProject => ["projectId"]
    case GitLabGetIssues => ["projectId"]
    case GitLabCreateIssue => ["projectId", "title"]
    case GitLabGetMergeRequests => ["projectId"]
    case GitLabCreateMergeRequest => ["projectId", "title", "sourceBranch", "targetBranch"]
  }

  /** Each case rejects exactly when one of the keys it checks is missing. */
  lemma CaseChecksRequiredKeys(server: Server, host: Host, id: ToolId, args: Value)
    ensures RunCase(server, host, id, args).Reject? <==> !HasKeys(args, CaseRequires(id))
  {
    match id
    case Echo =>
    case GetTime =>
    case GitHubGetUser =>
    case GitHubGetRepos =>
    case GitHubGetRepo =>
    case GitHubGetIssues =>
    case GitHubCreateIssue =>
    case GitHubGetPullRequests =>
    case GitHubCreatePullRequest =>
    case GitHubGetCommits =>
    case GitHubGetFileContent =>
    case GitHubSearchRepos =>
    case GitHubGetReleases =>
    case GitHubGetRepoStats =>
    case GitHubGetUserByUsername =>
    case GitHubGetUserRepos =>
    case GitLabGetUser =>
    case GitLabGetProjects =>
    case GitLabGetProject =>
    case GitLabGetIssues =>
    case GitLabCreateIssue =>
    case GitLabGetMergeRequests =>
    case GitLabCreateMergeRequest =>
  }

  /** The case at place `i` checks the keys the catalogue entry at place
      `i` lists as required. */
  lemma CasesCheckDeclaredKeys()
    ensures |CaseIds| == |Tools|
    ensures forall i :: 0 <= i < |CaseIds| ==> CaseRequires(CaseIds[i]) == Required(Tools[i])
  {
    CasesCheckDeclaredKeysFrom0();
    CasesCheckDeclaredKeysFrom8();
    CasesCheckDeclaredKeysFrom16();
  }

  // The same, split by place to keep each proof small.

  lemma CasesCheckDeclaredKeysFrom0()
    ensures forall i :: 0 <= i < 8 ==> CaseRequires(CaseIds[i]) == Required(Tools[i])
  {
  }

  lemma CasesCheckDeclaredKeysFrom8()
    ensures forall i :: 8 <= i < 16 ==> CaseRequires(CaseIds[i]) == Required(Tools[i])
  {
  }

  lemma CasesCheckDeclaredKeysFrom16()
    ensures forall i :: 16 <= i < |Tools| ==> CaseRequires(CaseIds[i]) == Required(Tools[i])
  {
  }

  /** `args` holds every key a tool's schema lists as required. */
  predicate HasRequired(t: Tool, args: Value) {
    HasKeys(args, Required(t))
  }

  /** Calling a listed tool is refused before any work exactly when an
      argument its schema marks as required is missing. */
  lemma ValidationFollowsSchema(server: Server, host: Host, i: nat, args: Value)
    requires i < |Tools|
    ensures Dispatch(server, host, Str(Tools[i].name), args).Reject? <==>
      !HasRequired(Tools[i], args)
  {
    CaseOfListedName(i);
    CasesCheckDeclaredKeys();
    CaseChecksRequiredKeys(server, host, CaseIds[i], args);
  }

  /** A tool whose schema requires nothing is never refused: get_time,
      github_get_user, github_get_repos, gitlab_get_user and
      gitlab_get_projects. */
  lemma NoRequiredNeverRejects(server: Server, host: Host, i: nat, args: Value)
    requires i < |Tools| && Tools[i].inputSchema.required.None?
    ensures !Dispatch(server, host, Str(Tools[i].name), args).Reject?
  {
    ValidationFollowsSchema(server, host, i, args);
  }

  /** The five tools without a `required` list. */
  lemma ToolsWithoutRequiredKeys()
    ensures Tools[1].name == "get_time" && Tools[1].inputSchema.required.None?
    ensures Tools[2].name == "github_get_user" && Tools[2].inputSchema.required.None?
    ensures Tools[3].name == "github_get_repos" && Tools[3].inputSchema.required.None?
    ensures Tools[16].name == "gitlab_get_user" && Tools[16].inputSchema.required.None?
    ensures Tools[17].name == "gitlab_get_projects" && Tools[17].inputSchema.required.None?
  {
  }

  // ---------------------------------------------------------------------
  // Results

  /** A listed tool with a required argument missing answers with one
      error item naming the tool and carrying the case's message. */
  lemma MissingArgumentReported(server: Server, host: Host, i: nat, args: Value)
    requires i < |Tools| && !HasRequired(Tools[i], args)
    ensures var a := Dispatch(server, host, Str(Tools[i].name), args);
      var r := CallTool(server, host, Str(Tools[i].name), args);
      && a.Reject?
      && r == Some(CallResult([TextContent(("Error ejecutando " + Tools[i].name + ": ") + a.message)], true))
  {
    ValidationFollowsSchema(server, host, i, args);
  }

  /** A listed tool whose wrapper call rejects with `message` answers one
      error item naming the tool and carrying that message. */
  lemma WrapperFailureReported(server: Server, host: Host, i: nat, args: Value, message: string)
    requires i < |Tools|
    requires Dispatch(server, host, Str(Tools[i].name), args).Invoke?
    requires host.api(Dispatch(server, host, Str(Tools[i].name), args).call) == Rejected(message)
    ensures CallTool(server, host, Str(Tools[i].name), args)
            == Some(CallResult([TextContent("Error ejecutando " + Tools[i].name + ": " + message)], true))
  {
  }

  /** A name outside the catalogue (or a name that is not a string)
      answers with the unknown-tool error; a name that `${name}` cannot
      convert makes both the `default` case and the `catch` throw, so the
      handler itself throws. */
  lemma UnknownToolReported(server: Server, host: Host, name: Value, args: Value)
    requires !(name.Str? && name.s in Names(Tools))
    ensures Convertible(name) ==>
      var shown := Text(host.numberText, name);
      CallTool(server, host, name, args) ==
        Some(CallResult([TextContent(("Error ejecutando " + shown + ": ") + ("Herramienta desconocida: " + shown))], true))
    ensures !Convertible(name) ==> CallTool(server, host, name, args) == None
  {
  }

  /** `echo` repeats its `message` after "Echo: "; without one it reports
      the missing parameter, and with one `${message}` cannot convert it
      reports the conversion's TypeError. */
  lemma EchoReplies(server: Server, host: Host, args: Value)
    ensures var r := CallTool(server, host, Str("echo"), args);
      var message := Prop(args, "message");
      && (HasKey(args, "message") && Convertible(message) ==>
            r == Some(CallResult([TextContent("Echo: " + Text(host.numberText, message))], false)))
      && (HasKey(args, "message") && !Convertible(message) ==>
            r == Some(CallResult([TextContent(ErrorPrefix(host, Str("echo")) + host.conversionError)], true)))
      && (!HasKey(args, "message") ==>
            r == Some(CallResult([TextContent(ErrorPrefix(host, Str("echo"))
                                              + "Parámetro \"message\" requerido para la herramienta echo")], true)))
  {
  }

  // ---------------------------------------------------------------------
  // Defaults of optional arguments

  /** `given || fallback` as the wrappers receive it: the argument when it
      is truthy, the default when it is missing or falsy (`""`, `0`,
      `false`, `null`). */
  predicate Defaulted(passed: Value, given: Value, fallback: string) {
    (Truthy(given) ==> passed == given) && (!Truthy(given) ==> passed == Str(fallback))
  }

  /** The issue and pull-request listings of GitHub default `state` to
      "open". */
  lemma GitHubStateDefaults(server: Server, host: Host, args: Value)
    requires HasKeys(args, ["owner", "repo"])
    ensures RunCase(server, host, GitHubGetIssues, args).Invoke?
    ensures Defaulted(RunCase(server, host, GitHubGetIssues, args).call.state, Prop(args, "state"), "open")
    ensures RunCase(server, host, GitHubGetPullRequests, args).Invoke?
    ensures Defaulted(RunCase(server, host, GitHubGetPullRequests, args).call.state, Prop(args, "state"), "open")
  {
  }

  /** The commit listing defaults `branch` to "main". */
  lemma CommitsBranchDefault(server: Server, host: Host, args: Value)
    requires HasKeys(args, ["owner", "repo"])
    ensures RunCase(server, host, GitHubGetCommits, args).Invoke?
    ensures Defaulted(RunCase(server, host, GitHubGetCommits, args).call.branch, Prop(args, "branch"), "main")
  {
  }

  /** Reading a file defaults `branch` to "main". */
  lemma FileBranchDefault(server: Server, host: Host, args: Value)
    requires HasKeys(args, ["owner", "repo", "path"])
    ensures RunCase(server, host, GitHubGetFileContent, args).Invoke?
    ensures Defaulted(RunCase(server, host, GitHubGetFileContent, args).call.branch, Prop(args, "branch"), "main")
  {
  }

  /** The repository search defaults `sort` to "stars". */
  lemma SearchSortDefault(server: Server, host: Host, args: Value)
    requires HasKeys(args, ["query"])
    ensures RunCase(server, host, GitHubSearchRepos, args).Invoke?
    ensures Defaulted(RunCase(server, host, GitHubSearchRepos, args).call.sort, Prop(args, "sort"), "stars")
  {
  }

  /** The issue and merge-request listings of GitLab default `state` to
      "opened". */
  lemma GitLabStateDefaults(server: Server, host: Host, args: Value)
    requires HasKeys(args, ["projectId"])
    ensures RunCase(server, host, GitLabGetIssues, args).Invoke?
    ensures Defaulted(RunCase(server, host, GitLabGetIssues, args).call.state, Prop(args, "state"), "opened")
    ensures RunCase(server, host, GitLabGetMergeRequests, args).Invoke?
    ensures Defaulted(RunCase(server, host, GitLabGetMergeRequests, args).call.state, Prop(args, "state"), "opened")
  {
  }

  /** Each GitHub default is a value the tool's schema accepts for that
      argument: the `state` and `sort` enumerations list "open" and
      "stars", and `branch` is a declared text property. */
  lemma GitHubDefaultsAreDeclared()
    ensures CaseIds[5] == GitHubGetIssues && Accepts(Tools[5], "state", "open")
    ensures CaseIds[7] == GitHubGetPullRequests && Accepts(Tools[7], "state", "open")
    ensures CaseIds[9] == GitHubGetCommits && Accepts(Tools[9], "branch", "main")
    ensures CaseIds[10] == GitHubGetFileContent && Accepts(Tools[10], "branch", "main")
    ensures CaseIds[11] == GitHubSearchRepos && Accepts(Tools[11], "sort", "stars")
  {
    assert Tools[5].inputSchema.properties[2].key == "state";
    assert Tools[7].inputSchema.properties[2].key == "state";
    assert Tools[9].inputSchema.properties[2].key == "branch";
    assert Tools[10].inputSchema.properties[3].key == "branch";
    assert Tools[11].inputSchema.properties[1].key == "sort";
  }

  /** The GitLab default "opened" is in both `state` enumerations. */
  lemma GitLabDefaultsAreDeclared()
    ensures CaseIds[19] == GitLabGetIssues && Accepts(Tools[19], "state", "opened")
    ensures CaseIds[21] == GitLabGetMergeRequests && Accepts(Tools[21], "state", "opened")
  {
    assert Tools[19].inputSchema.properties[1].key == "state";
    assert Tools[21].inputSchema.properties[1].key == "state";
  }

  // ---------------------------------------------------------------------
  // The two servers

  /** An action with its result heading blanked. */
  function WithoutHeading(a: Action): Action {
    if a.Invoke? then a.(heading := "") else a
  }

  /** The GitLab cases whose result headings the two servers word
      differently. */
  predicate HeadingVaries(id: ToolId) {
    id == GitLabGetProject || id == GitLabGetIssues
    || id == GitLabGetMergeRequests || id == GitLabCreateMergeRequest
  }

  /** Both servers' cases check, default and call alike; only four GitLab
      headings differ. */
  lemma CasesAgreeAcrossServers(host: Host, id: ToolId, args: Value)
    ensures WithoutHeading(RunCase(Stdio, host, id, args)) == WithoutHeading(RunCase(Http, host, id, args))
    ensures !HeadingVaries(id) ==> RunCase(Stdio, host, id, args) == RunCase(Http, host, id, args)
  {
    match id
    case Echo =>
    case GetTime =>
    case GitHubGetUser =>
    case GitHubGetRepos =>
    case GitHubGetRepo =>
    case GitHubGetIssues =>
    case GitHubCreateIssue =>
    case GitHubGetPullRequests =>
    case GitHubCreatePullRequest =>
    case GitHubGetCommits =>
    case GitHubGetFileContent =>
    case GitHubSearchRepos =>
    case GitHubGetReleases =>
    case GitHubGetRepoStats =>
    case GitHubGetUserByUsername =>
    case GitHubGetUserRepos =>
    case GitLabGetUser =>
    case GitLabGetProjects =>
    case GitLabGetProject =>
    case GitLabGetIssues =>
    case GitLabCreateIssue =>
    case GitLabGetMergeRequests =>
    case GitLabCreateMergeRequest =>
  }

  /** The same call produces the same outcome on both servers up to the
      heading of a successful wrapper call. */
  lemma ServersAgree(host: Host, name: Value, args: Value)
    ensures WithoutHeading(Dispatch(Stdio, host, name, args)) == WithoutHeading(Dispatch(Http, host, name, args))
    ensures CallTool(Stdio, host, name, args).None? == CallTool(Http, host, name, args).None?
    ensures CallTool(Stdio, host, name, args).Some? ==>
      CallTool(Stdio, host, name, args).value.isError == CallTool(Http, host, name, args).value.isError
  {
    if CaseOf(name).Some? {
      CasesAgreeAcrossServers(host, CaseOf(name).value, args);
    }
  }
}
