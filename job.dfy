/**
 * The steps of a build job: `run`, `gitPull`, `gitReset`, `build` and
 * `handleArtifacts`. Each is a method over a `Shell`, proved against a
 * specification function that gives the commands it issues, the marker lines
 * it prints and the error it returns; the lemmas relate the whole run to the
 * plan of commands a successful job issues.
 */
module Job {
  import opened Text
  import opened Errors
  import opened Config
  import opened Artifacts
  import opened Exec

  /** The two facts of the file system the run depends on. */
  datatype World = World(
    /** `os.Chdir(workDir)` succeeds. */
    chdirOk: bool,
    /** `os.Stat(gitDir)` reports that the directory does not exist (any other outcome counts as present). */
    gitDirMissing: bool)

  /** The external commands a job can issue. */
  datatype Action = GitClone | GitCheckout | GradleJar | FindJars | TarArchive(artifacts: seq<string>) | Upload

  /** The command line and directory of each action. */
  function Command(b: Builder, a: Action): Cmd {
    match a
    case GitClone => Cmd(["git", "clone", "--recurse-submodules", b.gitCloneUrl, b.projectName], "")
    case GitCheckout => Cmd(["git", "checkout", b.gitRef, "--"], b.gitDir)
    case GradleJar => Cmd(["gradle", "jar", "-b", b.entryFile], b.gitDir)
    case FindJars => Cmd(FindArgv, b.gitDir)
    case TarArchive(artifacts) => Cmd(TarArgv(ArchiveName(b.projectName), artifacts), b.gitDir)
    case Upload => Cmd(PushArgv(b), b.gitDir)
  }

  function Commands(b: Builder, actions: seq<Action>): seq<Cmd> {
    seq(|actions|, i requires 0 <= i < |actions| => Command(b, actions[i]))
  }

  /** What the external programs answer to each action of a job run for `b`. */
  function Answers(b: Builder, respond: Cmd -> Outcome): Action -> Outcome {
    a => respond(Command(b, a))
  }

  /** What a piece of the run did: the actions issued, the lines printed, the error returned. */
  datatype Trace = Trace(actions: seq<Action>, jobOut: seq<string>, status: Status)

  // Specification of each step.

  const Nothing := Trace([], [], Done)

  /** One command: issued, and failed with the command's error when the runner reports failure. */
  function Step(b: Builder, a: Action, answer: Action -> Outcome): Trace {
    Trace([a], [], if answer(a).ok then Done else Failed(CommandFailed))
  }

  /** `t`, then `u` unless `t` returned an error: the early return after each step of the builder. */
  function Then(t: Trace, u: Trace): Trace {
    if t.status.Failed? then t
    else Trace(t.actions + u.actions, t.jobOut + u.jobOut, u.status)
  }

  /** With a registry repository: `tar`, upload, and print the URL; without one, nothing. */
  function UploadTrace(b: Builder, artifacts: seq<string>, answer: Action -> Outcome): Trace {
    if b.hubRepo == "" then Nothing
    else
      Then(Step(b, TarArchive(artifacts), answer),
        Then(Step(b, Upload, answer), Trace([], [ArtifactUrlLine(b)], Done)))
  }

  /** `handleArtifacts`: find, print the artifacts, then upload them. */
  function HandleArtifactsTrace(b: Builder, answer: Action -> Outcome): Trace {
    var found := answer(FindJars);
    if !found.ok then Step(b, FindJars, answer)
    else match ArtifactList(found.output)
      case Err(e) => Trace([FindJars], [], Failed(e))
      case Ok(artifacts) =>
        Then(Trace([FindJars], [ArtifactLine(artifacts)], Done), UploadTrace(b, artifacts, answer))
  }

  /** `gitPull` then `gitReset`, when the repository directory is missing. */
  function FetchTrace(b: Builder, gitDirMissing: bool, answer: Action -> Outcome): Trace {
    if gitDirMissing then Then(Step(b, GitClone, answer), Step(b, GitCheckout, answer)) else Nothing
  }

  /** `build` then `handleArtifacts`. */
  function BuildTrace(b: Builder, answer: Action -> Outcome): Trace {
    Then(Step(b, GradleJar, answer), HandleArtifactsTrace(b, answer))
  }

  /** `run`: change into the working directory, fetch when the repository is missing, build, handle artifacts. */
  function RunTrace(b: Builder, w: World, answer: Action -> Outcome): Trace {
    if !w.chdirOk then Trace([], [], Failed(ChdirFailed(b.workDir)))
    else Then(FetchTrace(b, w.gitDirMissing, answer), BuildTrace(b, answer))
  }

  // The plan a successful run follows, and what every run has in common with it.

  /**
   * The artifacts listed by the output of `find`, or none when that output is
   * blank. What a failing `find` printed does not matter: no run goes past it.
   */
  function Found(b: Builder, answer: Action -> Outcome): seq<string> {
    match ArtifactList(answer(FindJars).output)
    case Ok(artifacts) => artifacts
    case Err(_) => []
  }

  function FetchPlan(gitDirMissing: bool): seq<Action> {
    if gitDirMissing then [GitClone, GitCheckout] else []
  }

  function UploadPlan(hubRepo: string, artifacts: seq<string>): seq<Action> {
    if hubRepo == "" then [] else [TarArchive(artifacts), Upload]
  }

  function HandlePlan(hubRepo: string, artifacts: seq<string>): seq<Action> {
    [FindJars] + UploadPlan(hubRepo, artifacts)
  }

  function BuildPlan(hubRepo: string, artifacts: seq<string>): seq<Action> {
    [GradleJar] + HandlePlan(hubRepo, artifacts)
  }

  /** Every action of a successful job, in order. */
  function Plan(b: Builder, gitDirMissing: bool, artifacts: seq<string>): seq<Action> {
    FetchPlan(gitDirMissing) + BuildPlan(b.hubRepo, artifacts)
  }

  /**
   * A trace stops at the first failure: every action but the last
   * succeeded, and the last failed exactly when the error is a command's.
   */
  ghost predicate StopsAtFailure(t: Trace, answer: Action -> Outcome) {
    var n := |t.actions|;
    && (forall i :: 0 <= i < n - 1 ==> answer(t.actions[i]).ok)
    && (n == 0 ==> t.status != Failed(CommandFailed))
    && (n > 0 ==> (!answer(t.actions[n - 1]).ok <==> t.status == Failed(CommandFailed)))
  }

  /** `t` issues a prefix of `plan`, and all of it when it succeeds. */
  ghost predicate Follows(t: Trace, plan: seq<Action>) {
    t.actions <= plan && (t.status.Done? ==> t.actions == plan)
  }

  lemma StepStops(b: Builder, a: Action, answer: Action -> Outcome)
    ensures StopsAtFailure(Step(b, a, answer), answer)
    ensures Follows(Step(b, a, answer), [a])
  {
  }

  /** Every action issued before a successful end succeeded. */
  lemma DoneMeansAllOk(t: Trace, answer: Action -> Outcome)
    requires StopsAtFailure(t, answer) && t.status.Done?
    ensures forall i :: 0 <= i < |t.actions| ==> answer(t.actions[i]).ok
  {
  }

  /** Sequencing with early exit keeps both properties. */
  lemma ThenStops(t: Trace, u: Trace, p: seq<Action>, q: seq<Action>, answer: Action -> Outcome)
    requires StopsAtFailure(t, answer) && StopsAtFailure(u, answer)
    requires Follows(t, p) && Follows(u, q)
    ensures StopsAtFailure(Then(t, u), answer)
    ensures Follows(Then(t, u), p + q)
  {
    if t.status.Done? {
      DoneMeansAllOk(t, answer);
      var v := Then(t, u);
      var n := |t.actions|;
      assert v.actions == t.actions + u.actions;
      forall i | 0 <= i < |v.actions| - 1 ensures answer(v.actions[i]).ok {
        if i >= n { assert v.actions[i] == u.actions[i - n]; }
      }
      if |u.actions| == 0 && n > 0 {
        assert v.actions[|v.actions| - 1] == t.actions[n - 1];
      }
      assert t.actions == p;
      if u.actions <= q {
        assert (p + q)[..n] == p;
        assert (p + q)[n..n + |u.actions|] == q[..|u.actions|];
      }
    } else {
      assert p <= p + q;
    }
  }

  /** The upload part: stops at its first failure, prints the URL only when both commands succeeded. */
  lemma UploadStops(b: Builder, artifacts: seq<string>, answer: Action -> Outcome)
    ensures StopsAtFailure(UploadTrace(b, artifacts, answer), answer)
    ensures Follows(UploadTrace(b, artifacts, answer), UploadPlan(b.hubRepo, artifacts))
    ensures var u := UploadTrace(b, artifacts, answer);
      u.jobOut == if u.status.Done? && b.hubRepo != "" then [ArtifactUrlLine(b)] else []
    ensures UploadTrace(b, artifacts, answer).status in {Done, Failed(CommandFailed)}
  {
    if b.hubRepo != "" {
      var url := Trace([], [ArtifactUrlLine(b)], Done);
      StepStops(b, TarArchive(artifacts), answer);
      StepStops(b, Upload, answer);
      ThenStops(Step(b, Upload, answer), url, [Upload], [], answer);
      assert [Upload] + [] == [Upload];
      ThenStops(Step(b, TarArchive(artifacts), answer), Then(Step(b, Upload, answer), url),
        [TarArchive(artifacts)], [Upload], answer);
    }
  }

  lemma HandleArtifactsStops(b: Builder, answer: Action -> Outcome)
    ensures StopsAtFailure(HandleArtifactsTrace(b, answer), answer)
    ensures Follows(HandleArtifactsTrace(b, answer), HandlePlan(b.hubRepo, Found(b, answer)))
  {
    var found := answer(FindJars);
    var plan := HandlePlan(b.hubRepo, Found(b, answer));
    if !found.ok {
      StepStops(b, FindJars, answer);
      assert [FindJars] <= plan;
    } else if ArtifactList(found.output).Err? {
      assert [FindJars] <= plan;
    } else {
      var artifacts := ArtifactList(found.output).value;
      var listed := Trace([FindJars], [ArtifactLine(artifacts)], Done);
      UploadStops(b, artifacts, answer);
      ThenStops(listed, UploadTrace(b, artifacts, answer), [FindJars], UploadPlan(b.hubRepo, artifacts), answer);
    }
  }

  lemma FetchStops(b: Builder, gitDirMissing: bool, answer: Action -> Outcome)
    ensures StopsAtFailure(FetchTrace(b, gitDirMissing, answer), answer)
    ensures Follows(FetchTrace(b, gitDirMissing, answer), FetchPlan(gitDirMissing))
    ensures FetchTrace(b, gitDirMissing, answer).jobOut == []
  {
    if gitDirMissing {
      StepStops(b, GitClone, answer);
      StepStops(b, GitCheckout, answer);
      ThenStops(Step(b, GitClone, answer), Step(b, GitCheckout, answer), [GitClone], [GitCheckout], answer);
    }
  }

  /** `gradle jar` then `handleArtifacts`. */
  lemma BuildStops(b: Builder, answer: Action -> Outcome)
    ensures StopsAtFailure(BuildTrace(b, answer), answer)
    ensures Follows(BuildTrace(b, answer), BuildPlan(b.hubRepo, Found(b, answer)))
  {
    StepStops(b, GradleJar, answer);
    HandleArtifactsStops(b, answer);
    ThenStops(Step(b, GradleJar, answer), HandleArtifactsTrace(b, answer),
      [GradleJar], HandlePlan(b.hubRepo, Found(b, answer)), answer);
  }

  /**
   * Every run stops at its first failing step and issues a prefix of the
   * plan; it succeeds only after issuing the whole plan.
   */
  lemma RunFollowsPlan(b: Builder, w: World, answer: Action -> Outcome)
    ensures StopsAtFailure(RunTrace(b, w, answer), answer)
    ensures w.chdirOk ==> Follows(RunTrace(b, w, answer), Plan(b, w.gitDirMissing, Found(b, answer)))
    ensures !w.chdirOk ==> RunTrace(b, w, answer) == Trace([], [], Failed(ChdirFailed(b.workDir)))
  {
    if w.chdirOk {
      var rest := BuildPlan(b.hubRepo, Found(b, answer));
      BuildStops(b, answer);
      FetchStops(b, w.gitDirMissing, answer);
      ThenStops(FetchTrace(b, w.gitDirMissing, answer),
        BuildTrace(b, answer),
        FetchPlan(w.gitDirMissing), rest, answer);
    }
  }

  /** `handleArtifacts` fails with "no artifact" exactly when `find` succeeded with a blank output. */
  lemma HandleStatus(b: Builder, answer: Action -> Outcome)
    ensures HandleArtifactsTrace(b, answer).status in {Done, Failed(CommandFailed), Failed(NoArtifact)}
    ensures HandleArtifactsTrace(b, answer).status == Failed(NoArtifact) <==>
      answer(FindJars).ok && AllSpace(answer(FindJars).output)
  {
    var found := answer(FindJars);
    if found.ok && ArtifactList(found.output).Ok? {
      var artifacts := ArtifactList(found.output).value;
      UploadStops(b, artifacts, answer);
      assert HandleArtifactsTrace(b, answer).status == UploadTrace(b, artifacts, answer).status;
    }
  }

  /** `build` adds only its own command's error to those of `handleArtifacts`. */
  lemma BuildStatus(b: Builder, answer: Action -> Outcome)
    ensures BuildTrace(b, answer).status in {Done, Failed(CommandFailed), Failed(NoArtifact)}
    ensures BuildTrace(b, answer).status != Failed(CommandFailed) ==>
      BuildTrace(b, answer).status == HandleArtifactsTrace(b, answer).status
  {
    HandleStatus(b, answer);
  }

  /** Past `chdir`, a run fails with a command's error or "no artifact", the latter only from `handleArtifacts`. */
  lemma RunStatus(b: Builder, w: World, answer: Action -> Outcome)
    requires w.chdirOk
    ensures RunTrace(b, w, answer).status in {Done, Failed(CommandFailed), Failed(NoArtifact)}
    ensures RunTrace(b, w, answer).status != Failed(CommandFailed) ==>
      RunTrace(b, w, answer).status == HandleArtifactsTrace(b, answer).status
  {
    BuildStatus(b, answer);
    FetchPrintsNothing(b, w.gitDirMissing, answer);
  }

  /**
   * A run succeeds exactly when the working directory is reachable, every
   * command of the plan succeeds and `find` reports at least one artifact.
   */
  lemma RunSucceedsIff(b: Builder, w: World, answer: Action -> Outcome)
    ensures RunTrace(b, w, answer).status.Done? <==>
      && w.chdirOk
      && (forall a :: a in Plan(b, w.gitDirMissing, Found(b, answer)) ==> answer(a).ok)
      && !AllSpace(answer(FindJars).output)
  {
    var t := RunTrace(b, w, answer);
    var plan := Plan(b, w.gitDirMissing, Found(b, answer));
    RunFollowsPlan(b, w, answer);
    if w.chdirOk {
      RunStatus(b, w, answer);
      HandleStatus(b, answer);
      if t.status.Done? {
        DoneMeansAllOk(t, answer);
      } else if forall a :: a in plan ==> answer(a).ok {
        var n := |t.actions|;
        if n > 0 { assert t.actions[n - 1] == plan[n - 1]; }
        assert t.status == Failed(NoArtifact);
        assert FindJars in plan;
      }
    }
  }

  /** The three ways `handleArtifacts` can go: stop after `find`, after `tar`, or after the upload. */
  lemma HandleActions(b: Builder, answer: Action -> Outcome)
    ensures var h := HandleArtifactsTrace(b, answer).actions;
      || h == [FindJars]
      || h == [FindJars, TarArchive(Found(b, answer))]
      || h == [FindJars, TarArchive(Found(b, answer)), Upload]
  {
    var found := answer(FindJars);
    if found.ok && ArtifactList(found.output).Ok? && b.hubRepo != "" {
      var artifacts := ArtifactList(found.output).value;
      var u := UploadTrace(b, artifacts, answer);
      assert u.actions == [TarArchive(artifacts)] || u.actions == [TarArchive(artifacts), Upload];
    }
  }

  /** `build` and `handleArtifacts` never touch the repository. */
  lemma BuildIssuesNoGit(b: Builder, answer: Action -> Outcome)
    ensures GitClone !in BuildTrace(b, answer).actions
    ensures GitCheckout !in BuildTrace(b, answer).actions
  {
    HandleActions(b, answer);
    var h := HandleArtifactsTrace(b, answer);
    assert BuildTrace(b, answer).actions == [GradleJar] || BuildTrace(b, answer).actions == [GradleJar] + h.actions;
  }

  /** Fetching prints nothing, does not look for artifacts, and fails only with a command's error. */
  lemma FetchPrintsNothing(b: Builder, gitDirMissing: bool, answer: Action -> Outcome)
    ensures FetchTrace(b, gitDirMissing, answer).jobOut == []
    ensures FindJars !in FetchTrace(b, gitDirMissing, answer).actions
    ensures FetchTrace(b, gitDirMissing, answer).status in {Done, Failed(CommandFailed)}
  {
  }

  /** The repository is cloned, and then checked out, only when its directory is missing. */
  lemma CloneOnlyWhenMissing(b: Builder, w: World, answer: Action -> Outcome)
    ensures GitClone in RunTrace(b, w, answer).actions <==> w.chdirOk && w.gitDirMissing
    ensures GitCheckout in RunTrace(b, w, answer).actions ==> w.chdirOk && w.gitDirMissing
    ensures w.chdirOk && w.gitDirMissing ==> RunTrace(b, w, answer).actions[..1] == [GitClone]
    ensures w.chdirOk && w.gitDirMissing && |RunTrace(b, w, answer).actions| > 1 ==>
      RunTrace(b, w, answer).actions[..2] == [GitClone, GitCheckout]
  {
    if w.chdirOk {
      var t := RunTrace(b, w, answer);
      var fetch := FetchTrace(b, w.gitDirMissing, answer);
      var build := BuildTrace(b, answer);
      BuildIssuesNoGit(b, answer);
      if !w.gitDirMissing {
        assert t == build;
      } else if fetch.status.Done? {
        assert fetch.actions == [GitClone, GitCheckout];
        assert t.actions == [GitClone, GitCheckout] + build.actions;
      } else {
        assert t == fetch;
        assert t.actions[..1] == [GitClone];
      }
    }
  }

  /** A failing build ends the run with its error: `handleArtifacts` is never reached. */
  lemma BuildFailureStops(b: Builder, w: World, answer: Action -> Outcome)
    requires w.chdirOk && !answer(GradleJar).ok
    requires w.gitDirMissing ==> answer(GitClone).ok && answer(GitCheckout).ok
    ensures RunTrace(b, w, answer).status == Failed(CommandFailed)
    ensures RunTrace(b, w, answer).actions == FetchPlan(w.gitDirMissing) + [GradleJar]
    ensures RunTrace(b, w, answer).jobOut == []
  {
  }

  /** The marker lines of `handleArtifacts` on their own. */
  lemma HandleArtifactsMarkers(b: Builder, answer: Action -> Outcome)
    ensures var t := HandleArtifactsTrace(b, answer);
      t.jobOut <= [ArtifactLine(Found(b, answer)), ArtifactUrlLine(b)]
    ensures var t := HandleArtifactsTrace(b, answer);
      |t.jobOut| >= 1 <==> answer(FindJars).ok && !AllSpace(answer(FindJars).output)
    ensures var t := HandleArtifactsTrace(b, answer);
      |t.jobOut| == 2 <==> t.status.Done? && b.hubRepo != ""
    ensures HandleArtifactsTrace(b, answer).actions[..1] == [FindJars]
  {
    var found := answer(FindJars);
    if found.ok && ArtifactList(found.output).Ok? {
      var artifacts := ArtifactList(found.output).value;
      UploadStops(b, artifacts, answer);
      var u := UploadTrace(b, artifacts, answer);
      assert HandleArtifactsTrace(b, answer) == Trace([FindJars] + u.actions, [ArtifactLine(artifacts)] + u.jobOut, u.status);
    }
  }

  /** The marker lines of `build` followed by `handleArtifacts`. */
  lemma BuildMarkers(b: Builder, answer: Action -> Outcome)
    ensures var t := BuildTrace(b, answer);
      t.jobOut <= [ArtifactLine(Found(b, answer)), ArtifactUrlLine(b)]
    ensures var t := BuildTrace(b, answer);
      |t.jobOut| >= 1 <==>
        FindJars in t.actions && answer(FindJars).ok && !AllSpace(answer(FindJars).output)
    ensures var t := BuildTrace(b, answer);
      |t.jobOut| == 2 <==> t.status.Done? && b.hubRepo != ""
  {
    HandleArtifactsMarkers(b, answer);
    var t := BuildTrace(b, answer);
    var h := HandleArtifactsTrace(b, answer);
    if answer(GradleJar).ok {
      assert t.actions == [GradleJar] + h.actions;
      assert t.actions[1] == h.actions[..1][0];
    } else {
      assert t.actions == [GradleJar];
    }
  }

  /**
   * The marker lines of a run: `ARTIFACT` only after `find` succeeded with a
   * non-blank output, `ARTIFACT_URL` only after the upload succeeded, and
   * never the second without the first.
   */
  lemma MarkerLines(b: Builder, w: World, answer: Action -> Outcome)
    ensures var t := RunTrace(b, w, answer);
      t.jobOut <= [ArtifactLine(Found(b, answer)), ArtifactUrlLine(b)]
    ensures var t := RunTrace(b, w, answer);
      |t.jobOut| >= 1 <==>
        FindJars in t.actions && answer(FindJars).ok && !AllSpace(answer(FindJars).output)
    ensures var t := RunTrace(b, w, answer);
      |t.jobOut| == 2 <==> t.status.Done? && b.hubRepo != ""
  {
    if w.chdirOk {
      var t := RunTrace(b, w, answer);
      var fetch := FetchTrace(b, w.gitDirMissing, answer);
      var build := BuildTrace(b, answer);
      FetchPrintsNothing(b, w.gitDirMissing, answer);
      BuildMarkers(b, answer);
      if fetch.status.Done? {
        assert t.jobOut == build.jobOut && t.status == build.status;
        assert t.actions == fetch.actions + build.actions;
        assert FindJars in t.actions <==> FindJars in build.actions;
      } else {
        assert t == fetch;
      }
    }
  }

  /** Without a registry repository nothing is archived or uploaded, and no URL is printed. */
  lemma NoUploadWithoutRepo(b: Builder, w: World, answer: Action -> Outcome)
    requires b.hubRepo == ""
    ensures RunTrace(b, w, answer).actions <= FetchPlan(w.gitDirMissing) + [GradleJar, FindJars]
    ensures |RunTrace(b, w, answer).jobOut| <= 1
  {
    RunFollowsPlan(b, w, answer);
    MarkerLines(b, w, answer);
    assert BuildPlan(b.hubRepo, Found(b, answer)) == [GradleJar, FindJars];
  }

  /** The command lines of the plan, written out: clone and checkout, `gradle jar`, `find`, `tar` and the upload. */
  lemma PlanCommands(b: Builder, gitDirMissing: bool, artifacts: seq<string>)
    ensures Commands(b, Plan(b, gitDirMissing, artifacts)) ==
      (if gitDirMissing then
        [ Cmd(["git", "clone", "--recurse-submodules", b.gitCloneUrl, b.projectName], ""),
          Cmd(["git", "checkout", b.gitRef, "--"], b.gitDir) ]
       else [])
      + [ Cmd(["gradle", "jar", "-b", b.entryFile], b.gitDir),
          Cmd(["find", "./", "-name", "*.jar"], b.gitDir) ]
      + (if b.hubRepo == "" then []
         else
           [ Cmd(["tar", "-cjf", b.projectName + ".tar.bz"] + artifacts, b.gitDir),
             Cmd(PushArgv(b), b.gitDir) ])
  {
    var up := UploadPlan(b.hubRepo, artifacts);
    CommandsAppend(b, FetchPlan(gitDirMissing), BuildPlan(b.hubRepo, artifacts));
    CommandsAppend(b, [GradleJar], HandlePlan(b.hubRepo, artifacts));
    CommandsAppend(b, [FindJars], up);
    Regroup(Commands(b, FetchPlan(gitDirMissing)), [Command(b, GradleJar)], [Command(b, FindJars)] + Commands(b, up));
    Regroup(Commands(b, FetchPlan(gitDirMissing)) + [Command(b, GradleJar)], [Command(b, FindJars)], Commands(b, up));
  }

  /** A successful run issued exactly the planned command lines, over the artifacts `find` reported. */
  lemma SuccessfulRunCommands(b: Builder, w: World, answer: Action -> Outcome)
    requires RunTrace(b, w, answer).status.Done?
    ensures w.chdirOk
    ensures Commands(b, RunTrace(b, w, answer).actions) == Commands(b, Plan(b, w.gitDirMissing, Found(b, answer)))
    ensures Found(b, answer) != []
  {
    RunFollowsPlan(b, w, answer);
    RunSucceedsIff(b, w, answer);
    ArtifactListLines(answer(FindJars).output);
  }

  /** A job for `app.git` with registry credentials and repository, and no cache flag. */
  const ExampleEnvs: map<string, string> := map[
    "GIT_CLONE_URL" := "https://host/org/app.git",
    "HUB_USER" := "ci", "HUB_TOKEN" := "pw",
    "HUB_REPO" := "hub/org"]

  /** The variables `NewBuilder` reads from `ExampleEnvs`. */
  const ExampleVars := Vars(
    "https://host/org/app.git", "", "", "", "",
    "ci", "pw", "", "",
    "hub/org", "", "",
    "")

  /** What it resolves to: the scratch space, ref `master`, `./build.gradle`, tag `latest`. */
  const ExampleBuilder := Builder(
    gitCloneUrl := "https://host/org/app.git", gitRef := "master",
    entryFile := "./build.gradle", hubRepo := "hub/org",
    hubUser := "ci", hubToken := "pw",
    artifactTag := "latest", artifactPath := "",
    projectName := "app", workflowCache := false,
    workDir := "/root/src", gitDir := "/root/src/app")

  /** `NewBuilder` resolves the example environment to the example builder. */
  lemma ExampleResolves()
    ensures NewBuilder(ExampleEnvs) == Ok(ExampleBuilder)
  {
    ExampleReads();
    ExampleResolvesVars();
  }

  lemma ExampleReads()
    ensures ReadVars(ExampleEnvs) == ExampleVars
  {
    var keys := ExampleEnvs.Keys;
    assert keys == {"GIT_CLONE_URL", "HUB_USER", "HUB_TOKEN", "HUB_REPO"};
    assert "GIT_REF" !in keys && "_WORKFLOW_GIT_CLONE_URL" !in keys && "_WORKFLOW_GIT_REF" !in keys;
    assert "ENTRY_FILE" !in keys && "_WORKFLOW_HUB_USER" !in keys && "_WORKFLOW_HUB_TOKEN" !in keys;
    assert "ARTIFACT_PATH" !in keys && "ARTIFACT_TAG" !in keys && "_WORKFLOW_FLAG_CACHE" !in keys;
  }

  lemma ExampleResolvesVars()
    ensures Resolve(ExampleVars) == Ok(ExampleBuilder)
  {
    ExampleName();
    ExampleGitDir();
    assert CloneSource(ExampleVars) == ("https://host/org/app.git", "");
    assert HubCredentials(ExampleVars) == ("ci", "pw");
    assert ToLower("") == "";
  }

  lemma ExampleName()
    ensures ProjectName("https://host/org/app.git") == "app"
  {
    assert "https://host/org/app.git" == "https://host/org" + "/" + "app" + ".git";
    ProjectNameOf("https://host/org", "app");
  }

  lemma ExampleGitDir()
    ensures PathJoin([BaseSpace, "app"]) == "/root/src/app"
  {
    PathJoinTwo(BaseSpace, "app");
  }

  /** Its whole plan, command line by command line. */
  lemma ExampleCommands()
    ensures Commands(ExampleBuilder, Plan(ExampleBuilder, true, ["./app.jar"])) == [
      Cmd(["git", "clone", "--recurse-submodules", "https://host/org/app.git", "app"], ""),
      Cmd(["git", "checkout", "master", "--"], "/root/src/app"),
      Cmd(["gradle", "jar", "-b", "./build.gradle"], "/root/src/app"),
      Cmd(["find", "./", "-name", "*.jar"], "/root/src/app"),
      Cmd(["tar", "-cjf", "app.tar.bz", "./app.jar"], "/root/src/app"),
      Cmd(ExamplePushArgv, "/root/src/app")]
  {
    var b := ExampleBuilder;
    PlanCommands(b, true, ["./app.jar"]);
    ExamplePush();
    assert b.projectName + ".tar.bz" == "app.tar.bz";
    assert ["tar", "-cjf", b.projectName + ".tar.bz"] + ["./app.jar"] ==
      ["tar", "-cjf", "app.tar.bz", "./app.jar"];
  }

  const ExamplePushArgv := [UploadTool, "push", "--username=ci", "--password=pw",
    "--repo=hub/org", "--localpath=app.tar.bz", "--path=app.tar.bz", "--tag=latest"]

  /** The upload: its credentials, repository, archive and the default tag. */
  lemma ExamplePush()
    ensures PushArgv(ExampleBuilder) == ExamplePushArgv
  {
    ExampleRemotePath();
    ExampleFlags();
  }

  lemma ExampleRemotePath()
    ensures RemotePath(ExampleBuilder) == "app.tar.bz"
  {
    RemotePathOf(ExampleBuilder);
  }

  /** String-literal concatenations of the upload flags, split out of `ExamplePush` for the solver. */
  lemma ExampleFlags()
    ensures "--username=" + "ci" == "--username=ci" && "--password=" + "pw" == "--password=pw"
    ensures "--repo=" + "hub/org" == "--repo=hub/org" && "--tag=" + "latest" == "--tag=latest"
    ensures "--localpath=" + ("app" + ".tar.bz") == "--localpath=app.tar.bz"
    ensures "--path=" + "app.tar.bz" == "--path=app.tar.bz"
  {
  }

  /** The URL it prints after the upload. */
  lemma ExampleUrl()
    ensures ArtifactUrlLine(ExampleBuilder) == "[JOB_OUT] ARTIFACT_URL = hub/org/app.tar.bz"
  {
    ArtifactUrlLineOf(ExampleBuilder);
  }

  // The steps as the Go code performs them.

  method GitPull(b: Builder, sh: Shell) returns (st: Status)
    modifies sh
    ensures sh.issued == old(sh.issued) + [Command(b, GitClone)] && sh.jobOut == old(sh.jobOut)
    ensures st == Step(b, GitClone, Answers(b, sh.respond)).status
  {
    var o := sh.Run(Command(b, GitClone));
    st := if o.ok then Done else Failed(CommandFailed);
  }

  method GitReset(b: Builder, sh: Shell) returns (st: Status)
    modifies sh
    ensures sh.issued == old(sh.issued) + [Command(b, GitCheckout)] && sh.jobOut == old(sh.jobOut)
    ensures st == Step(b, GitCheckout, Answers(b, sh.respond)).status
  {
    var o := sh.Run(Command(b, GitCheckout));
    st := if o.ok then Done else Failed(CommandFailed);
  }

  method Build(b: Builder, sh: Shell) returns (st: Status)
    modifies sh
    ensures sh.issued == old(sh.issued) + [Command(b, GradleJar)] && sh.jobOut == old(sh.jobOut)
    ensures st == Step(b, GradleJar, Answers(b, sh.respond)).status
  {
    var o := sh.Run(Command(b, GradleJar));
    st := if o.ok then Done else Failed(CommandFailed);
  }

  lemma CommandsAppend(b: Builder, x: seq<Action>, y: seq<Action>)
    ensures Commands(b, x + y) == Commands(b, x) + Commands(b, y)
  {
  }

  /** Concatenation regrouped, for the commands and lines a step appends to what came before. */
  lemma Regroup<T>(a: seq<T>, f: seq<T>, h: seq<T>)
    ensures a + (f + h) == a + f + h
  {
  }

  lemma CommandsOne(b: Builder, a: Action)
    ensures Commands(b, [a]) == [Command(b, a)]
  {
  }

  /** The upload part of `handleArtifacts`: nothing without a registry repository, else `tar`, upload, URL line. */
  method UploadArtifacts(b: Builder, artifacts: seq<string>, sh: Shell) returns (st: Status)
    modifies sh
    ensures sh.issued == old(sh.issued) + Commands(b, UploadTrace(b, artifacts, Answers(b, sh.respond)).actions)
    ensures sh.jobOut == old(sh.jobOut) + UploadTrace(b, artifacts, Answers(b, sh.respond)).jobOut
    ensures st == UploadTrace(b, artifacts, Answers(b, sh.respond)).status
  {
    ghost var answer := Answers(b, sh.respond);
    if b.hubRepo == "" {
      return Done;
    }
    var o := sh.Run(Command(b, TarArchive(artifacts)));
    assert o == answer(TarArchive(artifacts));
    if !o.ok {
      CommandsOne(b, TarArchive(artifacts));
      return Failed(CommandFailed);
    }
    o := sh.Run(Command(b, Upload));
    assert o == answer(Upload);
    CommandsOne(b, TarArchive(artifacts));
    CommandsOne(b, Upload);
    CommandsAppend(b, [TarArchive(artifacts)], [Upload]);
    if !o.ok {
      return Failed(CommandFailed);
    }
    sh.Emit(ArtifactUrlLine(b));
    return Done;
  }

  method HandleArtifacts(b: Builder, sh: Shell) returns (st: Status)
    modifies sh
    ensures sh.issued == old(sh.issued) + Commands(b, HandleArtifactsTrace(b, Answers(b, sh.respond)).actions)
    ensures sh.jobOut == old(sh.jobOut) + HandleArtifactsTrace(b, Answers(b, sh.respond)).jobOut
    ensures st == HandleArtifactsTrace(b, Answers(b, sh.respond)).status
  {
    ghost var answer := Answers(b, sh.respond);
    var o := sh.Run(Command(b, FindJars));
    assert o == answer(FindJars);
    CommandsOne(b, FindJars);
    if !o.ok {
      return Failed(CommandFailed);
    }
    var listing := ArtifactList(o.output);
    if listing.Err? {
      return Failed(listing.error);
    }
    var artifacts := listing.value;
    sh.Emit(ArtifactLine(artifacts));
    ghost var u := UploadTrace(b, artifacts, answer);
    assert HandleArtifactsTrace(b, answer) ==
      Trace([FindJars] + u.actions, [ArtifactLine(artifacts)] + u.jobOut, u.status);
    CommandsAppend(b, [FindJars], u.actions);
    Regroup(old(sh.issued), [Command(b, FindJars)], Commands(b, u.actions));
    Regroup(old(sh.jobOut), [ArtifactLine(artifacts)], u.jobOut);
    st := UploadArtifacts(b, artifacts, sh);
  }

  /** The block of `run` that clones and checks out the repository when its directory is missing. */
  method FetchIfMissing(b: Builder, gitDirMissing: bool, sh: Shell) returns (st: Status)
    modifies sh
    ensures sh.issued == old(sh.issued) + Commands(b, FetchTrace(b, gitDirMissing, Answers(b, sh.respond)).actions)
    ensures sh.jobOut == old(sh.jobOut)
    ensures st == FetchTrace(b, gitDirMissing, Answers(b, sh.respond)).status
  {
    ghost var answer := Answers(b, sh.respond);
    if !gitDirMissing {
      assert Commands(b, []) == [];
      return Done;
    }
    st := GitPull(b, sh);
    CommandsOne(b, GitClone);
    if st.Failed? {
      return;
    }
    st := GitReset(b, sh);
    CommandsOne(b, GitCheckout);
    CommandsAppend(b, [GitClone], [GitCheckout]);
  }

  /** A run that got past fetching: the fetch commands, then `gradle jar`, then `handleArtifacts` unless the build failed. */
  lemma RunAfterFetch(b: Builder, w: World, answer: Action -> Outcome)
    requires w.chdirOk && FetchTrace(b, w.gitDirMissing, answer).status.Done?
    ensures var fetch := FetchTrace(b, w.gitDirMissing, answer);
      var t := RunTrace(b, w, answer);
      !answer(GradleJar).ok ==>
        && Commands(b, t.actions) == Commands(b, fetch.actions) + [Command(b, GradleJar)]
        && t.jobOut == [] && t.status == Failed(CommandFailed)
    ensures var fetch := FetchTrace(b, w.gitDirMissing, answer);
      var handle := HandleArtifactsTrace(b, answer);
      var t := RunTrace(b, w, answer);
      answer(GradleJar).ok ==>
        && Commands(b, t.actions) == Commands(b, fetch.actions) + [Command(b, GradleJar)] + Commands(b, handle.actions)
        && t.jobOut == handle.jobOut && t.status == handle.status
  {
    var fetch := FetchTrace(b, w.gitDirMissing, answer);
    var handle := HandleArtifactsTrace(b, answer);
    var build := BuildTrace(b, answer);
    CommandsOne(b, GradleJar);
    assert RunTrace(b, w, answer).actions == fetch.actions + build.actions;
    CommandsAppend(b, fetch.actions, build.actions);
    if answer(GradleJar).ok {
      assert build.actions == [GradleJar] + handle.actions;
      CommandsAppend(b, [GradleJar], handle.actions);
      Regroup(Commands(b, fetch.actions), [Command(b, GradleJar)], Commands(b, handle.actions));
    }
  }

  method Run(b: Builder, w: World, sh: Shell) returns (st: Status)
    modifies sh
    ensures sh.issued == old(sh.issued) + Commands(b, RunTrace(b, w, Answers(b, sh.respond)).actions)
    ensures sh.jobOut == old(sh.jobOut) + RunTrace(b, w, Answers(b, sh.respond)).jobOut
    ensures st == RunTrace(b, w, Answers(b, sh.respond)).status
  {
    ghost var answer := Answers(b, sh.respond);
    if !w.chdirOk {
      assert Commands(b, []) == [];
      return Failed(ChdirFailed(b.workDir));
    }
    st := FetchIfMissing(b, w.gitDirMissing, sh);
    if st.Failed? {
      return;
    }
    RunAfterFetch(b, w, answer);
    ghost var fetched := Commands(b, FetchTrace(b, w.gitDirMissing, answer).actions);
    Regroup(old(sh.issued), fetched, [Command(b, GradleJar)]);
    Regroup(old(sh.issued), fetched + [Command(b, GradleJar)], Commands(b, HandleArtifactsTrace(b, answer).actions));
    st := Build(b, sh);
    if st.Failed? {
      return;
    }
    st := HandleArtifacts(b, sh);
  }
}
