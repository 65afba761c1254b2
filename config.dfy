/**
 * The configuration resolver: `NewBuilder` reads the environment-variable
 * map, applies the plain/`_WORKFLOW_` fallbacks and defaults, validates the
 * clone URL and the registry credentials, derives the project name and picks
 * the working directory.
 */
module Config {
  import opened Text
  import opened Errors

  const BaseSpace := "/root/src"
  const CacheSpace := "/workflow-cache"

  /** The resolved configuration of one build job. */
  datatype Builder = Builder(
    gitCloneUrl: string,
    gitRef: string,
    entryFile: string,
    hubRepo: string,
    hubUser: string,
    hubToken: string,
    artifactTag: string,
    artifactPath: string,
    projectName: string,
    workflowCache: bool,
    workDir: string,
    gitDir: string)
  {
    /** What every builder returned by `NewBuilder` satisfies. */
    predicate Valid() {
      && gitCloneUrl != "" && gitRef != "" && entryFile != "" && artifactTag != ""
      && hubUser != "" && hubToken != ""
      && projectName == ProjectName(gitCloneUrl)
      && workDir == (if workflowCache then CacheSpace else BaseSpace)
      && gitDir == PathJoin([workDir, projectName])
    }
  }

  /** `envs[key]` of a Go map: the empty string when the key is absent. */
  function Lookup(envs: map<string, string>, key: string): string {
    if key in envs then envs[key] else ""
  }

  function OrDefault(v: string, default: string): string {
    if v == "" then default else v
  }

  /**
   * The project name derived from a clone URL: one trailing "/" removed, then
   * one trailing ".git", then everything up to the last "/".
   */
  function ProjectName(url: string): (r: string)
    ensures '/' !in r
    ensures var s := TrimSuffix(TrimSuffix(url, "/"), ".git");
      |r| <= |s| && r == s[|s| - |r|..] && (|r| < |s| ==> s[|s| - |r| - 1] == '/')
  {
    AfterLastSlash(TrimSuffix(TrimSuffix(url, "/"), ".git"))
  }

  /** The environment variables `NewBuilder` reads, each looked up once. */
  datatype Vars = Vars(
    gitCloneUrl: string, gitRef: string,
    workflowGitCloneUrl: string, workflowGitRef: string,
    entryFile: string,
    hubUser: string, hubToken: string,
    workflowHubUser: string, workflowHubToken: string,
    hubRepo: string, artifactPath: string, artifactTag: string,
    workflowFlagCache: string)

  function ReadVars(envs: map<string, string>): Vars {
    Vars(
      Lookup(envs, "GIT_CLONE_URL"), Lookup(envs, "GIT_REF"),
      Lookup(envs, "_WORKFLOW_GIT_CLONE_URL"), Lookup(envs, "_WORKFLOW_GIT_REF"),
      Lookup(envs, "ENTRY_FILE"),
      Lookup(envs, "HUB_USER"), Lookup(envs, "HUB_TOKEN"),
      Lookup(envs, "_WORKFLOW_HUB_USER"), Lookup(envs, "_WORKFLOW_HUB_TOKEN"),
      Lookup(envs, "HUB_REPO"), Lookup(envs, "ARTIFACT_PATH"), Lookup(envs, "ARTIFACT_TAG"),
      Lookup(envs, "_WORKFLOW_FLAG_CACHE"))
  }

  /** The clone URL and ref first chosen: the plain pair when GIT_CLONE_URL is set, else the workflow pair. */
  function CloneSource(v: Vars): (string, string) {
    if v.gitCloneUrl != "" then (v.gitCloneUrl, v.gitRef)
    else (v.workflowGitCloneUrl, v.workflowGitRef)
  }

  /** The final HUB_USER/HUB_TOKEN pair: the workflow pair only when both plain ones are empty. */
  function HubCredentials(v: Vars): (string, string) {
    if v.hubUser == "" && v.hubToken == "" then (v.workflowHubUser, v.workflowHubToken)
    else (v.hubUser, v.hubToken)
  }

  /** The body of `NewBuilder`, over the variables it reads, in the order the Go code writes the fields. */
  function Resolve(v: Vars): Result<Builder>
  {
    var (url, ref) := CloneSource(v);
    if url == "" then Err(MissingCloneUrl)
    else
      var ref := OrDefault(ref, "master");
      var name := ProjectName(url);
      // the ref chosen above is overwritten: only GIT_REF is read here
      var ref := OrDefault(v.gitRef, "master");
      var entryFile := OrDefault(v.entryFile, "./build.gradle");
      var (user, token) := HubCredentials(v);
      if user == "" || token == "" then Err(MissingHubCredentials)
      else
        var tag := OrDefault(v.artifactTag, "latest");
        var cache := ToLower(v.workflowFlagCache) == "true";
        var workDir := if cache then CacheSpace else BaseSpace;
        Ok(Builder(
          gitCloneUrl := url, gitRef := ref, entryFile := entryFile,
          hubRepo := v.hubRepo, hubUser := user, hubToken := token,
          artifactTag := tag, artifactPath := v.artifactPath,
          projectName := name, workflowCache := cache,
          workDir := workDir, gitDir := PathJoin([workDir, name])))
  }

  /** `NewBuilder(envs)`: a validated configuration, or the first configuration error. */
  function NewBuilder(envs: map<string, string>): Result<Builder> {
    Resolve(ReadVars(envs))
  }

  /** Every configuration `NewBuilder` returns satisfies the invariants of a build job. */
  lemma NewBuilderValid(envs: map<string, string>)
    requires NewBuilder(envs).Ok?
    ensures NewBuilder(envs).value.Valid()
  {
  }

  /**
   * The two configuration errors: a missing clone URL (both sources empty),
   * checked first, and an incomplete credential pair after the fallback.
   */
  lemma NewBuilderErrors(envs: map<string, string>)
    ensures NewBuilder(envs) == Err(MissingCloneUrl) <==>
      Lookup(envs, "GIT_CLONE_URL") == "" && Lookup(envs, "_WORKFLOW_GIT_CLONE_URL") == ""
    ensures NewBuilder(envs) == Err(MissingHubCredentials) <==>
      && (Lookup(envs, "GIT_CLONE_URL") != "" || Lookup(envs, "_WORKFLOW_GIT_CLONE_URL") != "")
      && (HubCredentials(ReadVars(envs)).0 == "" || HubCredentials(ReadVars(envs)).1 == "")
    ensures NewBuilder(envs) == Err(MissingHubCredentials) <==>
      && (Lookup(envs, "GIT_CLONE_URL") != "" || Lookup(envs, "_WORKFLOW_GIT_CLONE_URL") != "")
      && if Lookup(envs, "HUB_USER") == "" && Lookup(envs, "HUB_TOKEN") == ""
         then Lookup(envs, "_WORKFLOW_HUB_USER") == "" || Lookup(envs, "_WORKFLOW_HUB_TOKEN") == ""
         else Lookup(envs, "HUB_USER") == "" || Lookup(envs, "HUB_TOKEN") == ""
    ensures NewBuilder(envs).Err? ==> NewBuilder(envs).error in {MissingCloneUrl, MissingHubCredentials}
  {
  }

  /** GIT_CLONE_URL wins over its workflow alias; the alias is used only when it is empty. */
  lemma CloneUrlPrecedence(envs: map<string, string>)
    requires NewBuilder(envs).Ok?
    ensures NewBuilder(envs).value.gitCloneUrl ==
      if Lookup(envs, "GIT_CLONE_URL") != "" then Lookup(envs, "GIT_CLONE_URL")
      else Lookup(envs, "_WORKFLOW_GIT_CLONE_URL")
  {
  }

  /** The resolved ref is GIT_REF, or "master" when that is empty, whichever URL was used. */
  lemma GitRefResolution(envs: map<string, string>)
    requires NewBuilder(envs).Ok?
    ensures NewBuilder(envs).value.gitRef == if Lookup(envs, "GIT_REF") != "" then Lookup(envs, "GIT_REF") else "master"
  {
  }

  /** `_WORKFLOW_GIT_REF` never affects the outcome of `NewBuilder`. */
  lemma WorkflowRefIgnored(envs: map<string, string>, v: string)
    ensures NewBuilder(envs["_WORKFLOW_GIT_REF" := v]) == NewBuilder(envs)
  {
    ReadWorkflowRef(envs, v);
    ResolveIgnoresWorkflowRef(ReadVars(envs), v);
  }

  lemma ReadWorkflowRef(envs: map<string, string>, v: string)
    ensures ReadVars(envs["_WORKFLOW_GIT_REF" := v]) == ReadVars(envs).(workflowGitRef := v)
  {
  }

  lemma ResolveIgnoresWorkflowRef(vars: Vars, v: string)
    ensures Resolve(vars.(workflowGitRef := v)) == Resolve(vars)
  {
    assert CloneSource(vars.(workflowGitRef := v)).0 == CloneSource(vars).0;
  }

  /** A lone HUB_USER without HUB_TOKEN is refused even when the workflow pair is complete. */
  lemma LoneHubUserFails(envs: map<string, string>)
    requires Lookup(envs, "GIT_CLONE_URL") != "" || Lookup(envs, "_WORKFLOW_GIT_CLONE_URL") != ""
    requires Lookup(envs, "HUB_USER") != "" && Lookup(envs, "HUB_TOKEN") == ""
    ensures NewBuilder(envs) == Err(MissingHubCredentials)
  {
  }

  /**
   * The credentials of a builder: the plain pair when either plain variable
   * is set, whatever the workflow pair holds; the workflow pair when both
   * plain variables are empty.
   */
  lemma PlainCredentialsWin(envs: map<string, string>)
    requires NewBuilder(envs).Ok?
    ensures Lookup(envs, "HUB_USER") != "" || Lookup(envs, "HUB_TOKEN") != "" ==>
      && NewBuilder(envs).value.hubUser == Lookup(envs, "HUB_USER")
      && NewBuilder(envs).value.hubToken == Lookup(envs, "HUB_TOKEN")
    ensures Lookup(envs, "HUB_USER") == "" && Lookup(envs, "HUB_TOKEN") == "" ==>
      && NewBuilder(envs).value.hubUser == Lookup(envs, "_WORKFLOW_HUB_USER")
      && NewBuilder(envs).value.hubToken == Lookup(envs, "_WORKFLOW_HUB_TOKEN")
  {
  }

  /** ENTRY_FILE and ARTIFACT_TAG have defaults; HUB_REPO and ARTIFACT_PATH are copied as they are. */
  lemma Defaults(envs: map<string, string>)
    requires NewBuilder(envs).Ok?
    ensures NewBuilder(envs).value.entryFile ==
      if Lookup(envs, "ENTRY_FILE") == "" then "./build.gradle" else Lookup(envs, "ENTRY_FILE")
    ensures NewBuilder(envs).value.artifactTag ==
      if Lookup(envs, "ARTIFACT_TAG") == "" then "latest" else Lookup(envs, "ARTIFACT_TAG")
    ensures NewBuilder(envs).value.hubRepo == Lookup(envs, "HUB_REPO")
    ensures NewBuilder(envs).value.artifactPath == Lookup(envs, "ARTIFACT_PATH")
  {
  }

  /** The cache space is used exactly for the case variants of "true"; the repository sits under it. */
  lemma WorkDirSelection(envs: map<string, string>)
    requires NewBuilder(envs).Ok?
    ensures var v := Lookup(envs, "_WORKFLOW_FLAG_CACHE");
      NewBuilder(envs).value.workDir == CacheSpace <==>
        |v| == 4 && v[0] in "tT" && v[1] in "rR" && v[2] in "uU" && v[3] in "eE"
    ensures var b := NewBuilder(envs).value;
      b.gitDir == if b.projectName == "" then b.workDir else b.workDir + "/" + b.projectName
  {
    ToLowerIsTrue(Lookup(envs, "_WORKFLOW_FLAG_CACHE"));
    var b := NewBuilder(envs).value;
    PathJoinTwo(b.workDir, b.projectName);
  }

  /** A clone URL ending in ".git" or in "/" names the repository by its last segment. */
  lemma ProjectNameOf(prefix: string, name: string)
    requires name != [] && '/' !in name && !HasSuffix(name, ".git")
    ensures ProjectName(prefix + "/" + name + ".git") == name
    ensures ProjectName(prefix + "/" + name + "/") == name
    ensures ProjectName(prefix + "/" + name + ".git/") == name
  {
    var s := prefix + "/" + name;
    assert !HasSuffix(s, "/") by {
      assert s[|s| - 1] == name[|name| - 1];
      assert name[|name| - 1] in name;
    }
    assert !HasSuffix(s, ".git") by {
      if |name| >= 4 {
        assert s[|s| - 4..] == name[|name| - 4..];
      } else if |s| >= 4 {
        var t := s[|s| - 4..];
        assert t[3 - |name|] == s[|prefix|] == '/';
      }
    }
    assert TrimSuffix(s + ".git", "/") == s + ".git";
    assert TrimSuffix(s + ".git", ".git") == s;
    assert TrimSuffix(s + "/", "/") == s;
    assert TrimSuffix(s + ".git/", "/") == s + ".git";
    AfterLastSlashOf(prefix, name);
  }

  /** `https://example.com/org/my-repo.git` and `https://example.com/org/my-repo/` both give `my-repo`. */
  lemma ProjectNameExamples()
    ensures ProjectName("https://example.com/org" + "/" + "my-repo" + ".git") == "my-repo"
    ensures ProjectName("https://example.com/org" + "/" + "my-repo" + "/") == "my-repo"
  {
    assert !HasSuffix("my-repo", ".git");
    ProjectNameOf("https://example.com/org", "my-repo");
  }
}
