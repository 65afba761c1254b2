/**
 * The pure part of `handleArtifacts`: turning the captured output of `find`
 * into the artifact list, the `[JOB_OUT]` marker lines, the archive name and
 * the argument vectors of the `tar` and upload commands.
 */
module Artifacts {
  import opened Text
  import opened Errors
  import opened Config

  const FindArgv: seq<string> := ["find", "./", "-name", "*.jar"]
  const UploadTool := "/.workflow/bin/thub"

  /**
   * The artifacts named by the output of `find`: the output with its white
   * space trimmed, split into lines, or `NoArtifact` when nothing is left.
   */
  function ArtifactList(output: string): (r: Result<seq<string>>)
    ensures r.Err? <==> AllSpace(output)
    ensures r.Err? ==> r.error == NoArtifact
  {
    var t := TrimSpace(output);
    TrimSpaceEmptyIff(output);
    if |t| == 0 then Err(NoArtifact) else Ok(Split(t, '\n'))
  }

  /** The listed artifacts are the lines of the trimmed output: at least one, none containing a newline. */
  lemma ArtifactListLines(output: string)
    requires ArtifactList(output).Ok?
    ensures |ArtifactList(output).value| >= 1
    ensures Join(ArtifactList(output).value, "\n") == TrimSpace(output)
    ensures forall i :: 0 <= i < |ArtifactList(output).value| ==> '\n' !in ArtifactList(output).value[i]
  {
    JoinSplit(TrimSpace(output), '\n');
  }

  /** The `[JOB_OUT] ARTIFACT = …` line: the artifacts joined by ";". */
  function ArtifactLine(artifacts: seq<string>): string {
    "[JOB_OUT] ARTIFACT = " + Join(artifacts, ";")
  }

  /** The marker line lists the trimmed `find` output with every newline turned into ";". */
  lemma ArtifactLineOf(output: string)
    requires ArtifactList(output).Ok?
    ensures ArtifactLine(ArtifactList(output).value) ==
      "[JOB_OUT] ARTIFACT = " + Replace(TrimSpace(output), '\n', ';')
  {
    JoinSplitReplace(TrimSpace(output), '\n', ';');
  }

  /** The archive the artifacts are bundled into. */
  function ArchiveName(projectName: string): string {
    projectName + ".tar.bz"
  }

  /** `tar -cjf <archive> <artifacts…>` */
  function TarArgv(archive: string, artifacts: seq<string>): seq<string> {
    ["tar", "-cjf", archive] + artifacts
  }

  /** The remote path of the upload: the archive under ARTIFACT_PATH. */
  function RemotePath(b: Builder): string {
    PathJoin([b.artifactPath, ArchiveName(b.projectName)])
  }

  /** The upload command with the registry credentials, repository, local and remote paths and tag. */
  function PushArgv(b: Builder): seq<string> {
    [ UploadTool, "push",
      "--username=" + b.hubUser, "--password=" + b.hubToken,
      "--repo=" + b.hubRepo,
      "--localpath=" + ArchiveName(b.projectName),
      "--path=" + RemotePath(b),
      "--tag=" + b.artifactTag ]
  }

  /** The `[JOB_OUT] ARTIFACT_URL = …` line: repository, artifact path and archive joined as a path. */
  function ArtifactUrlLine(b: Builder): string {
    "[JOB_OUT] ARTIFACT_URL = " + PathJoin([b.hubRepo, b.artifactPath, ArchiveName(b.projectName)])
  }

  /**
   * The archive is uploaded to `<ARTIFACT_PATH>/<project>.tar.bz`, or to the
   * bare archive name when ARTIFACT_PATH is empty.
   */
  lemma RemotePathOf(b: Builder)
    ensures RemotePath(b) ==
      if b.artifactPath == "" then b.projectName + ".tar.bz"
      else b.artifactPath + "/" + b.projectName + ".tar.bz"
  {
    var archive := ArchiveName(b.projectName);
    assert archive != [] by { assert |archive| >= 7; }
    assert [b.artifactPath, archive][1..] == [archive];
    assert NonEmpty([archive]) == [archive] + NonEmpty([]);
    if b.artifactPath == "" {
      assert NonEmpty([b.artifactPath, archive]) == [archive];
    } else {
      PathJoinTwo(b.artifactPath, archive);
    }
  }

  /**
   * The `ARTIFACT_URL` value: repository, artifact path and archive joined by
   * "/", an empty repository or path dropped.
   */
  lemma ArtifactUrlLineOf(b: Builder)
    ensures ArtifactUrlLine(b) == "[JOB_OUT] ARTIFACT_URL = " +
      (if b.hubRepo == "" then "" else b.hubRepo + "/") +
      (if b.artifactPath == "" then "" else b.artifactPath + "/") +
      b.projectName + ".tar.bz"
  {
    var archive := ArchiveName(b.projectName);
    var parts := [b.hubRepo, b.artifactPath, archive];
    assert archive != [] by { assert |archive| >= 7; }
    assert parts[1..] == [b.artifactPath, archive];
    assert [b.artifactPath, archive][1..] == [archive];
    assert NonEmpty([archive]) == [archive] + NonEmpty([]);
    var tail := NonEmpty([b.artifactPath, archive]);
    assert tail == if b.artifactPath == "" then [archive] else [b.artifactPath, archive];
    assert Join(tail, "/") == (if b.artifactPath == "" then "" else b.artifactPath + "/") + archive by {
      if b.artifactPath != "" {
        assert tail[1..] == [archive];
      }
    }
    if b.hubRepo != "" {
      assert NonEmpty(parts) == [b.hubRepo] + tail;
      assert ([b.hubRepo] + tail)[1..] == tail;
    }
  }
}
