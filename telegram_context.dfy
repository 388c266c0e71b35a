/** Reading the arguments of `/ctx set` and `/topic` into a project and a
    branch, and combining a topic's bound context with the chat's project. */
module TelegramContext {
  import opened Wrappers
  import opened Model
  import Text

  /** `_usage_ctx_set`. */
  function UsageCtxSet(chatProject: Option<string>): string {
    if chatProject.Some? then "usage: `/ctx set [@branch]`" else "usage: `/ctx set <project> [@branch]`"
  }

  /** `_usage_topic`. */
  function UsageTopic(chatProject: Option<string>): string {
    if chatProject.Some? then "usage: `/topic @branch`" else "usage: `/topic <project> @branch`"
  }

  /** `token[1:] or None`: the branch named by an `@` token. */
  function BranchOfToken(token: string): (r: Option<string>)
    requires Text.StartsWith(token, "@")
    ensures r.None? <==> token == "@"
    ensures r.Some? ==> "@" + r.value == token
  {
    if |token| == 1 then None else Some(token[1..])
  }

  /** How the tokens read before any project lookup: the project token, if
      any, and the branch, if any; or the error for a malformed list. */
  datatype Shape = Shape(projectToken: Option<string>, branch: Option<string>)

  function ShapeOf(tokens: seq<string>): (r: Result<Shape>)
    requires 1 <= |tokens| <= 2
    ensures r.Err? <==> |tokens| == 2 && !Text.StartsWith(tokens[0], "@") && !Text.StartsWith(tokens[1], "@")
    ensures r.Ok? ==> (r.value.projectToken.None? <==> Text.StartsWith(tokens[0], "@"))
    ensures r.Ok? && r.value.projectToken.Some? ==> r.value.projectToken.value == tokens[0]
    ensures r.Ok? && r.value.branch.Some? ==> r.value.branch.value != [] && "@" + r.value.branch.value in tokens
  {
    var first := tokens[0];
    if Text.StartsWith(first, "@") then Ok(Shape(None, BranchOfToken(first)))
    else if |tokens| == 2 then
      if !Text.StartsWith(tokens[1], "@") then Err("branch must be prefixed with @")
      else Ok(Shape(Some(first), BranchOfToken(tokens[1])))
    else Ok(Shape(Some(first), None))
  }

  /** `_parse_project_branch_args`, on the tokens of the argument text; the
      runtime's project-key normalisation and alias lookup are parameters. */
  function ParseProjectBranchArgs(tokens: seq<string>, requireBranch: bool, chatProject: Option<string>,
                                  normalizeProjectKey: string -> Option<string>, projectAliasForKey: string -> string)
    : (r: Result<RunContext>)
    ensures tokens == [] ==> r == Err(if requireBranch then UsageTopic(chatProject) else UsageCtxSet(chatProject))
    ensures |tokens| > 2 ==> r == Err("too many arguments")
    ensures |tokens| == 2 && !Text.StartsWith(tokens[0], "@") && !Text.StartsWith(tokens[1], "@")
            ==> r == Err("branch must be prefixed with @")
    ensures r.Ok? ==> r.value.project.Some? && 1 <= |tokens| <= 2
    ensures r.Ok? && chatProject.Some? ==> r.value.project == chatProject
    ensures r.Ok? && chatProject.None? ==> (!Text.StartsWith(tokens[0], "@")
                                           && r.value.project == normalizeProjectKey(tokens[0]))
    ensures r.Ok? && r.value.branch.Some? ==> r.value.branch.value != [] && "@" + r.value.branch.value in tokens
    ensures r.Ok? && requireBranch ==> r.value.branch.Some?
  {
    if tokens == [] then Err(if requireBranch then UsageTopic(chatProject) else UsageCtxSet(chatProject))
    else if |tokens| > 2 then Err("too many arguments")
    else
      match ShapeOf(tokens)
      case Err(e) => Err(e)
      case Ok(shape) =>
        var projectKey := ProjectKey(shape.projectToken, chatProject, normalizeProjectKey, projectAliasForKey);
        if projectKey.Err? then Err(projectKey.error)
        else if requireBranch && shape.branch.None? then Err("branch is required")
        else Ok(RunContext(Some(projectKey.value), shape.branch))
  }

  /** The project key: the chat's project when the chat has one (a named
      project must normalise to it), else the named project, normalised. */
  function ProjectKey(projectToken: Option<string>, chatProject: Option<string>,
                      normalizeProjectKey: string -> Option<string>, projectAliasForKey: string -> string)
    : (r: Result<string>)
    ensures chatProject.Some? && r.Ok? ==> r.value == chatProject.value
    ensures chatProject.Some? && projectToken.Some? && normalizeProjectKey(projectToken.value).Some?
            && normalizeProjectKey(projectToken.value) != chatProject
            ==> r == Err("project mismatch for this chat; expected " + Text.Repr(projectAliasForKey(chatProject.value)) + ".")
    ensures projectToken.Some? && normalizeProjectKey(projectToken.value).None?
            ==> r == Err("unknown project " + Text.Repr(projectToken.value))
    ensures chatProject.None? && projectToken.None? ==> r == Err("project is required")
    ensures chatProject.None? && r.Ok? ==> projectToken.Some? && normalizeProjectKey(projectToken.value) == Some(r.value)
  {
    if chatProject.Some? then
      if projectToken.None? then Ok(chatProject.value)
      else
        var normalized := normalizeProjectKey(projectToken.value);
        if normalized.None? then Err("unknown project " + Text.Repr(projectToken.value))
        else if normalized.value != chatProject.value then
          Err("project mismatch for this chat; expected " + Text.Repr(projectAliasForKey(chatProject.value)) + ".")
        else Ok(normalized.value)
    else if projectToken.None? then Err("project is required")
    else
      var key := normalizeProjectKey(projectToken.value);
      if key.None? then Err("unknown project " + Text.Repr(projectToken.value)) else Ok(key.value)
  }

  /** Naming a known project and a branch reads back as that project and
      branch, whenever the chat has no project of its own or has that one. */
  lemma ProjectAndBranch(project: string, branch: string, key: string, requireBranch: bool, chatProject: Option<string>,
                         normalizeProjectKey: string -> Option<string>, projectAliasForKey: string -> string)
    requires !Text.StartsWith(project, "@") && branch != []
    requires normalizeProjectKey(project) == Some(key)
    requires chatProject.None? || chatProject == Some(key)
    ensures ParseProjectBranchArgs([project, "@" + branch], requireBranch, chatProject, normalizeProjectKey, projectAliasForKey)
         == Ok(RunContext(Some(key), Some(branch)))
  {
    var tokens := [project, "@" + branch];
    assert Text.StartsWith(tokens[1], "@");
    assert tokens[1][1..] == branch;
  }

  /** In a chat bound to a project, `@branch` alone is enough. */
  lemma BranchOnlyInBoundChat(branch: string, requireBranch: bool, chatProject: string,
                              normalizeProjectKey: string -> Option<string>, projectAliasForKey: string -> string)
    requires branch != []
    ensures ParseProjectBranchArgs(["@" + branch], requireBranch, Some(chatProject), normalizeProjectKey, projectAliasForKey)
         == Ok(RunContext(Some(chatProject), Some(branch)))
  {
    assert Text.StartsWith("@" + branch, "@");
    assert ("@" + branch)[1..] == branch;
  }

  /** A second token after an `@branch` is not read at all. */
  lemma SecondTokenAfterBranchIgnored(branch: string, other: string, requireBranch: bool, chatProject: Option<string>,
                                      normalizeProjectKey: string -> Option<string>, projectAliasForKey: string -> string)
    ensures ParseProjectBranchArgs(["@" + branch, other], requireBranch, chatProject, normalizeProjectKey, projectAliasForKey)
         == ParseProjectBranchArgs(["@" + branch], requireBranch, chatProject, normalizeProjectKey, projectAliasForKey)
  {
    assert Text.StartsWith("@" + branch, "@");
  }

  /** `_merge_topic_context`: without a chat project the bound context
      stands; with one, it fills in the project a bound context lacks. */
  function MergeTopicContext(chatProject: Option<string>, bound: Option<RunContext>): (r: Option<RunContext>)
    ensures chatProject.None? ==> r == bound
    ensures chatProject.Some? ==> r.Some? && r.value.project.Some?
    ensures bound.Some? && bound.value.project.Some? ==> r == bound
    ensures chatProject.Some? && (bound.None? || bound.value.project.None?) ==> r.value.project == chatProject
    ensures bound.Some? ==> r.Some? && r.value.branch == bound.value.branch
    ensures chatProject.Some? && bound.None? ==> r.value.branch.None?
  {
    if chatProject.None? then bound
    else if bound.None? then Some(RunContext(chatProject, None))
    else if bound.value.project.None? then Some(RunContext(chatProject, bound.value.branch))
    else bound
  }

  /** Merging once is enough. */
  lemma MergeIdempotent(chatProject: Option<string>, bound: Option<RunContext>)
    ensures MergeTopicContext(chatProject, MergeTopicContext(chatProject, bound)) == MergeTopicContext(chatProject, bound)
  {
  }
}
