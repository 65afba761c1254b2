# Gradle builder of the workflow components, in Dafny

This project models the gradle build job of `java/build/gradle/builder.go`.
It has three parts.

- **Configuration** (`Config`): `NewBuilder` reads a map of environment
  variables and returns either a resolved `Builder` or a configuration error.
  - It lets the plain variables win over their `_WORKFLOW_` aliases.
  - It fills in the defaults (`master`, `./build.gradle`, `latest`).
  - It rejects a missing clone URL and an incomplete credential pair.
  - It derives the project name from the clone URL.
  - It chooses the working directory from the cache flag.
- **Artifacts** (`Artifacts`): the pure part of `handleArtifacts`.
  - The output of `find` becomes the artifact list: trimmed, rejected when blank, split into lines.
  - The two `[JOB_OUT]` marker lines are built here.
  - So are the archive name and the `tar` and upload command lines.
- **Steps** (`Exec`, `Job`): `run`, `gitPull`, `gitReset`, `build` and
  `handleArtifacts` as methods over a `Shell`.
  - The `Shell` is an oracle from command to outcome. It records every command issued and every marker line printed.
  - Each method is proved against a specification function (`RunTrace`, `HandleArtifactsTrace`, …). That function gives the commands issued, the lines printed and the status returned.
  - Lemmas about these functions relate every run to the plan of commands that a successful job issues.

`Text` holds the pieces of Go's `strings` and `path/filepath` packages that
the builder uses, stated over `seq<char>`.

The ref is modelled the way the code behaves. Lines 43-45 pair
`_WORKFLOW_GIT_REF` with `_WORKFLOW_GIT_CLONE_URL`. However, line 57 then
reassigns the ref from `GIT_REF` alone, with `master` as the default. So the
workflow ref never reaches the result. `Config.Resolve` follows the code, and
`Config.WorkflowRefIgnored` proves the consequence.

## Model

| member | source | states |
|---|---|---|
| Config.NewBuilder | java/build/gradle/builder.go:37-93 | definition of `NewBuilder` over the environment map; its properties are the `Config` lemmas below |
| Config.Resolve | java/build/gradle/builder.go:40-92 | definition of the body of `NewBuilder`, field by field in the order the code writes them, the ref overwritten as at line 57 |
| Config.CloneSource | java/build/gradle/builder.go:40-45 | definition of the first choice of URL and ref; stated against the environment by `Config.CloneUrlPrecedence` |
| Config.HubCredentials | java/build/gradle/builder.go:65-71 | definition of the credential fallback; stated against the environment by `Config.PlainCredentialsWin` and `Config.NewBuilderErrors` |
| Config.Lookup | java/build/gradle/builder.go:40-83 | definition of the Go map index `envs[key]`: the bound value, or "" for an absent key |
| Config.ProjectName | java/build/gradle/builder.go:54-55 | the project name contains no "/"; it is the tail of the URL after one trailing "/" and then one trailing ".git" are removed; when shorter than that string, it is preceded by "/" |
| Config.ProjectNameOf | java/build/gradle/builder.go:54-55 | for a slash-free name not ending in ".git", the URLs `p/name.git`, `p/name/` and `p/name.git/` all give `name` |
| Config.ProjectNameExamples | java/build/gradle/builder.go:54-55 | `https://example.com/org/my-repo.git` and `https://example.com/org/my-repo/` both give `my-repo` |
| Config.NewBuilderValid | java/build/gradle/builder.go:37-93 | every builder returned has a non-empty URL, ref, entry file, tag, user and token; it has the derived project name; `workDir` is one of the two spaces; `gitDir` is `workDir` joined with the project name |
| Config.NewBuilderErrors | java/build/gradle/builder.go:40-74 | the result is "clone URL required" exactly when both URL variables are empty; it is "credentials required" exactly when a URL is present and either final credential is empty, that is, either workflow credential when both plain ones are empty, else either plain one; no other error occurs |
| Config.CloneUrlPrecedence | java/build/gradle/builder.go:40-48 | GIT_CLONE_URL is used whenever it is non-empty, even when the workflow alias is set; otherwise the alias is used |
| Config.GitRefResolution | java/build/gradle/builder.go:42-59 | the resolved ref is GIT_REF, or "master" when GIT_REF is empty, whichever URL was chosen |
| Config.WorkflowRefIgnored | java/build/gradle/builder.go:45-59 | changing `_WORKFLOW_GIT_REF` never changes the result of `NewBuilder` |
| Config.LoneHubUserFails | java/build/gradle/builder.go:65-74 | with either clone URL set, a HUB_USER without a HUB_TOKEN is refused, whatever the workflow pair holds |
| Config.PlainCredentialsWin | java/build/gradle/builder.go:65-74 | when either plain credential is set, the builder carries the plain pair; when both are empty, it carries `_WORKFLOW_HUB_USER` and `_WORKFLOW_HUB_TOKEN` |
| Config.Defaults | java/build/gradle/builder.go:61-81 | ENTRY_FILE defaults to "./build.gradle" and ARTIFACT_TAG to "latest"; HUB_REPO and ARTIFACT_PATH are copied unchanged |
| Config.WorkDirSelection | java/build/gradle/builder.go:83-90 | the cache space is chosen exactly when the flag is a case variant of "true"; `gitDir` is `workDir + "/" + projectName`, or `workDir` when the name is empty |
| Text.TrimSuffix | java/build/gradle/builder.go:54 | removes exactly one occurrence of the suffix when it is present; leaves the string alone otherwise |
| Text.LastIndex | java/build/gradle/builder.go:55 | the result is -1 or the position of the character, and no later position holds it |
| Text.AfterLastSlash | java/build/gradle/builder.go:55 | the result is a slash-free tail of the input, preceded by "/" when it is not the whole input |
| Text.AfterLastSlashOf | java/build/gradle/builder.go:55 | everything up to a "/" that precedes a slash-free tail is cut off |
| Text.AfterLastSlashNoSlash | java/build/gradle/builder.go:55 | a string without "/" is its own last segment |
| Text.TrimLeftFacts | java/build/gradle/builder.go:141 | trimming the left drops a blank prefix only, and leaves a non-blank first character |
| Text.TrimRightFacts | java/build/gradle/builder.go:141 | trimming the right drops a blank suffix only, and leaves a non-blank last character |
| Text.TrimSpace | java/build/gradle/builder.go:141 | the trimmed output neither starts nor ends with white space |
| Text.TrimSpaceEmptyIff | java/build/gradle/builder.go:141-142 | the trimmed output is empty exactly when the output is all white space |
| Text.TrimSpaceSlice | java/build/gradle/builder.go:141 | the trimmed output is a slice `s[i..j]` of the output with an all-blank prefix `s[..i]` and suffix `s[j..]` cut off; with `Text.TrimSpace`'s non-blank ends this fixes the result |
| Text.Split | java/build/gradle/builder.go:146 | splitting yields at least one piece, and no piece contains the separator |
| Text.SplitLength | java/build/gradle/builder.go:146 | splitting yields one more piece than there are separators |
| Text.Join | java/build/gradle/builder.go:147 | definition of `strings.Join`: the parts with the separator between each two; its value on the artifact list is stated by `Text.JoinSplit` and `Text.JoinSplitReplace` |
| Text.JoinSplit | java/build/gradle/builder.go:146-147 | joining the pieces with the separator gives back the input |
| Text.Replace | java/build/gradle/builder.go:147 | reference definition: each occurrence of one character replaced by another, stated pointwise; what it means for the source is carried by `Text.JoinSplitReplace` |
| Text.JoinSplitReplace | java/build/gradle/builder.go:146-147 | splitting on "\n" and joining with ";" replaces each newline by ";" |
| Text.ToLower | java/build/gradle/builder.go:83 | reference definition: lower-casing keeps the length and folds each character, stated pointwise; what it means for the source is carried by `Text.ToLowerIsTrue` |
| Text.ToLowerIsTrue | java/build/gradle/builder.go:83 | the lower-cased flag equals "true" exactly for the case variants of "true" |
| Text.NonEmpty | java/build/gradle/builder.go:90 | the parts that are joined are all non-empty, and every non-empty part is among them |
| Text.PathJoin | java/build/gradle/builder.go:90 | definition of `filepath.Join` without the final clean: the non-empty parts joined by "/"; its value is stated by `Text.PathJoinTwo` and `Artifacts.ArtifactUrlLineOf` |
| Text.PathJoinTwo | java/build/gradle/builder.go:90 | joining a directory with a name puts one "/" between them, or yields the directory when the name is empty |
| Artifacts.ArchiveName | java/build/gradle/builder.go:154 | definition of the archive name `<project>.tar.bz` |
| Artifacts.ArtifactLine | java/build/gradle/builder.go:147 | definition of the `ARTIFACT` line; its value for a `find` output is stated by `Artifacts.ArtifactLineOf` |
| Artifacts.TarArgv | java/build/gradle/builder.go:156-157 | definition of `tar -cjf <archive> <artifacts…>`; written out by `Job.PlanCommands` |
| Artifacts.PushArgv | java/build/gradle/builder.go:163-170 | definition of the upload command line; its path is stated by `Artifacts.RemotePathOf` and an instance by `Job.ExamplePush` |
| Artifacts.ArtifactUrlLine | java/build/gradle/builder.go:177 | definition of the `ARTIFACT_URL` line; its value is stated by `Artifacts.ArtifactUrlLineOf` |
| Artifacts.ArtifactList | java/build/gradle/builder.go:141-146 | the result is "no artifact" exactly when the `find` output is all white space; otherwise it is a list of artifacts |
| Artifacts.ArtifactListLines | java/build/gradle/builder.go:141-146 | the list has at least one entry; its entries are the lines of the trimmed output; joined by "\n" they give that output back |
| Artifacts.ArtifactLineOf | java/build/gradle/builder.go:146-147 | the `ARTIFACT` line is the trimmed output with each newline turned into ";" |
| Artifacts.RemotePath | java/build/gradle/builder.go:168 | definition of the upload path, ARTIFACT_PATH joined with the archive name; its value is stated by `Artifacts.RemotePathOf` |
| Artifacts.RemotePathOf | java/build/gradle/builder.go:154-168 | the upload path is `<ARTIFACT_PATH>/<project>.tar.bz`, or just the archive name when ARTIFACT_PATH is empty |
| Artifacts.ArtifactUrlLineOf | java/build/gradle/builder.go:154-177 | the `ARTIFACT_URL` value is `<HUB_REPO>/<ARTIFACT_PATH>/<project>.tar.bz`, with an empty repository or path dropped together with its "/" |
| Exec.Shell.Run | java/build/gradle/builder.go:208-223 | running a command returns the oracle's outcome for it and appends the command to those issued |
| Exec.Shell.Emit | java/build/gradle/builder.go:147-177 | printing a marker line, `ARTIFACT` at line 147 or `ARTIFACT_URL` at line 177, appends it to the lines printed and issues no command |
| Job.Command | java/build/gradle/builder.go:121-194 | definition of the command line and directory of each external command; written out by `Job.PlanCommands` |
| Job.Step | java/build/gradle/builder.go:126-129 | specification of one command: issued, and its error returned when it fails |
| Job.Then | java/build/gradle/builder.go:101-116 | specification of sequencing with an early return on the first error |
| Job.UploadTrace | java/build/gradle/builder.go:149-179 | specification of the upload part; properties in `Job.UploadStops` |
| Job.HandleArtifactsTrace | java/build/gradle/builder.go:134-180 | specification of `handleArtifacts`; properties in `Job.HandleArtifactsStops`, `Job.HandleStatus`, `Job.HandleActions`, `Job.HandleArtifactsMarkers` |
| Job.FetchTrace | java/build/gradle/builder.go:100-108 | specification of the clone-and-checkout block; properties in `Job.FetchStops`, `Job.FetchPrintsNothing` |
| Job.BuildTrace | java/build/gradle/builder.go:110-116 | specification of `build` followed by `handleArtifacts`; properties in `Job.BuildStops`, `Job.BuildStatus`, `Job.BuildMarkers` |
| Job.RunTrace | java/build/gradle/builder.go:95-118 | specification of `run`; properties in `Job.RunFollowsPlan`, `Job.RunSucceedsIff`, `Job.CloneOnlyWhenMissing`, `Job.MarkerLines` |
| Job.StepStops | java/build/gradle/builder.go:126-129 | one command fails the step exactly when the runner reports failure |
| Job.DoneMeansAllOk | java/build/gradle/builder.go:95-118 | in a trace that stops at its first failure, success means every issued command succeeded |
| Job.ThenStops | java/build/gradle/builder.go:101-116 | sequencing with an early return keeps the stop-at-first-failure property and the prefix-of-plan property |
| Job.UploadStops | java/build/gradle/builder.go:149-179 | the upload stops at its first failure and issues a prefix of `tar`, upload; it prints the URL line exactly when a repository is set and both commands succeeded |
| Job.HandleArtifactsStops | java/build/gradle/builder.go:134-180 | `handleArtifacts` stops at its first failure and issues a prefix of `find`, `tar`, upload |
| Job.FetchStops | java/build/gradle/builder.go:100-108 | the fetch stops at its first failure, issues a prefix of clone, checkout (nothing when the directory exists), and prints nothing |
| Job.BuildStops | java/build/gradle/builder.go:110-116 | `gradle jar` then `handleArtifacts` stops at its first failure and follows its plan |
| Job.RunFollowsPlan | java/build/gradle/builder.go:95-118 | every run stops at its first failing command and issues a prefix of the plan, and the whole plan when it succeeds; a failed chdir issues nothing and returns the chdir error |
| Job.HandleStatus | java/build/gradle/builder.go:134-180 | `handleArtifacts` returns a command's error, "no artifact" or success; "no artifact" exactly when `find` succeeded with a blank output |
| Job.BuildStatus | java/build/gradle/builder.go:110-116 | apart from a command's error, the status after the build is that of `handleArtifacts` |
| Job.RunStatus | java/build/gradle/builder.go:95-118 | past chdir, a run fails only with a command's error or "no artifact", and the latter comes from `handleArtifacts` |
| Job.RunSucceedsIff | java/build/gradle/builder.go:95-118 | a run succeeds exactly when chdir works, every planned command succeeds and `find` prints something besides white space |
| Job.HandleActions | java/build/gradle/builder.go:134-180 | `handleArtifacts` issues `find`; `find`, `tar`; or `find`, `tar`, upload, with the `tar` over the listed artifacts |
| Job.BuildIssuesNoGit | java/build/gradle/builder.go:120-180 | building and handling artifacts never clone or check out |
| Job.FetchPrintsNothing | java/build/gradle/builder.go:100-108 | fetching prints no marker line, runs no `find`, and fails only with a command's error |
| Job.CloneOnlyWhenMissing | java/build/gradle/builder.go:100-108 | the clone is issued exactly when chdir worked and the repository directory is missing; it comes first and is followed by the checkout; the checkout is never issued otherwise |
| Job.BuildFailureStops | java/build/gradle/builder.go:110-112 | a failing `gradle jar` ends the run with its error, after the fetch commands and the build, with no marker line |
| Job.HandleArtifactsMarkers | java/build/gradle/builder.go:134-180 | `handleArtifacts` starts with `find`; its lines are a prefix of ARTIFACT, ARTIFACT_URL; ARTIFACT appears exactly when `find` succeeded and its output is not all white space; ARTIFACT_URL appears exactly when `handleArtifacts` succeeded with a repository |
| Job.BuildMarkers | java/build/gradle/builder.go:110-116 | after `gradle jar` and `handleArtifacts`, the lines are a prefix of ARTIFACT, ARTIFACT_URL; ARTIFACT appears exactly when `find` ran, succeeded and its output is not all white space; ARTIFACT_URL appears exactly when the step succeeded with a repository |
| Job.MarkerLines | java/build/gradle/builder.go:95-118 | a run prints a prefix of ARTIFACT, ARTIFACT_URL; ARTIFACT exactly when `find` ran, succeeded and its output is not all white space; ARTIFACT_URL exactly when the run succeeded with a repository |
| Job.NoUploadWithoutRepo | java/build/gradle/builder.go:149-152 | without HUB_REPO a run issues at most the fetch, `gradle jar` and `find`, and prints at most the ARTIFACT line |
| Job.PlanCommands | java/build/gradle/builder.go:121-194 | the planned command lines written out: `git clone --recurse-submodules <url> <name>`, `git checkout <ref> --`, `gradle jar -b <entry>`, `find ./ -name *.jar`, `tar -cjf <name>.tar.bz <artifacts…>` and the upload, all in `gitDir` except the clone |
| Job.SuccessfulRunCommands | java/build/gradle/builder.go:95-118 | a successful run passed chdir, issued exactly the planned command lines and found at least one artifact |
| Job.ExampleResolves | java/build/gradle/builder.go:37-93 | the environment with `GIT_CLONE_URL=https://host/org/app.git`, `HUB_USER`, `HUB_TOKEN` and `HUB_REPO` set resolves to project `app`, ref `master`, `./build.gradle`, tag `latest`, work directory `/root/src` and repository directory `/root/src/app` |
| Job.ExampleReads | java/build/gradle/builder.go:40-83 | the variables read from that environment: the four set ones, and "" for every other |
| Job.ExampleResolvesVars | java/build/gradle/builder.go:40-92 | those variables resolve to the example builder |
| Job.ExampleName | java/build/gradle/builder.go:54-55 | `https://host/org/app.git` names the project `app` |
| Job.ExampleGitDir | java/build/gradle/builder.go:90 | the repository directory of `app` in the scratch space is `/root/src/app` |
| Job.ExampleCommands | java/build/gradle/builder.go:95-194 | that job's full plan: clone of the URL into `app`, `git checkout master --`, `gradle jar -b ./build.gradle`, `find`, `tar -cjf app.tar.bz ./app.jar` and the upload, all but the clone in `/root/src/app` |
| Job.ExamplePush | java/build/gradle/builder.go:163-170 | that job's upload passes `--username=ci`, `--password=pw`, `--repo=hub/org`, `--localpath=app.tar.bz`, `--path=app.tar.bz` and `--tag=latest` |
| Job.ExampleRemotePath | java/build/gradle/builder.go:168 | with ARTIFACT_PATH unset, that job uploads to the bare archive name `app.tar.bz` |
| Job.ExampleUrl | java/build/gradle/builder.go:177 | that job prints `ARTIFACT_URL = hub/org/app.tar.bz` |
| Job.GitPull | java/build/gradle/builder.go:182-190 | issues the clone command and returns its error when it fails |
| Job.GitReset | java/build/gradle/builder.go:192-201 | issues the checkout command in `gitDir` and returns its error when it fails |
| Job.Build | java/build/gradle/builder.go:120-132 | issues `gradle jar -b <entry>` in `gitDir` and returns its error when it fails |
| Job.UploadArtifacts | java/build/gradle/builder.go:149-179 | issues the commands, prints the lines and returns the status that `UploadTrace` specifies |
| Job.HandleArtifacts | java/build/gradle/builder.go:134-180 | issues the commands, prints the lines and returns the status that `HandleArtifactsTrace` specifies |
| Job.FetchIfMissing | java/build/gradle/builder.go:100-108 | issues the commands and returns the status that `FetchTrace` specifies, and prints nothing |
| Job.RunAfterFetch | java/build/gradle/builder.go:110-116 | after a successful fetch, a run issues `gradle jar`; it then stops with the build error, or continues with what `handleArtifacts` issues, prints and returns |
| Job.Run | java/build/gradle/builder.go:95-118 | issues the commands, prints the lines and returns the status that `RunTrace` specifies |

## Left out

- `CMD.Run` (lines 208-223) starts a subprocess and captures its combined output. The model replaces it with an oracle from command line and directory to output and success. Echoing the command and its output to stdout (lines 209 and 219) is not modelled. That stdout is the same stream that carries the `[JOB_OUT]` lines, but `jobOut` holds only the builder's own marker prints (lines 147 and 177). So what `Job.MarkerLines` and `Job.HandleArtifactsMarkers` state does not cover a command's echoed output that happens to look like a marker line.
- Repeated answers: the oracle is a function, so the same command always gets the same answer. No run issues the same command twice, so this loses nothing.
- `os.Chdir` and `os.Stat` (lines 96 and 100) are file-system effects. The model takes them as the two booleans of `World`. Any `Stat` outcome other than "does not exist" counts as present, as `os.IsNotExist` decides.
- Logging: every `fmt.Println` is left out except the two `[JOB_OUT]` marker lines.
- Error texts: the model keeps the kind of each error, and the directory for a failed chdir. It does not keep the message text or the wrapped cause. All command failures are `CommandFailed`.
- `os.Getwd` (lines 125 and 193): its result is never used, so it is not modelled.
- Text.PathJoin: it joins the non-empty parts with "/". It does not model the final `filepath.Clean`, which would also collapse "..", "." and doubled slashes in user-supplied values.
- Text.ToLower: folds ASCII letters only. Go's `strings.ToLower` also folds other letters. None of those folds into one of the letters of "true", so the cache decision is unaffected.
- Text.TrimSpace: strips the characters of Go's `unicode.IsSpace` (the Unicode White_Space set). Invalid UTF-8 is not modelled, since strings here are sequences of characters.
- The program's entry point, which reads the environment and calls `NewBuilder` and `run`, is not part of this model.
- The behaviour of the external tools (`git`, `gradle`, `find`, `tar`, the upload tool) is not modelled, and neither is whether the `ARTIFACT_URL` names a real location. The comment at line 176 marks that URL as a placeholder.
