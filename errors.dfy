/** The errors the gradle builder can return, and the result types that carry them. */
module Errors {

  datatype Error =
      /** "envionment variable GIT_CLONE_URL is required" */
    | MissingCloneUrl
      /** "envionment variable HUB_USER, HUB_TOKEN are required" */
    | MissingHubCredentials
      /** "chdir to workdir (<dir>) failed:<cause>" */
    | ChdirFailed(dir: string)
      /** the error of an external command that failed to start or exited non-zero */
    | CommandFailed
      /** "no artifact" */
    | NoArtifact

  datatype Result<T> = Ok(value: T) | Err(error: Error)

  /** A Go `error` return: `nil`, or an error. */
  datatype Status = Done | Failed(error: Error)
}
