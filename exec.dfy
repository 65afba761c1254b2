/**
 * The command runner `CMD.Run` as the builder sees it: a command goes out,
 * an outcome comes back. What the external programs do is an oracle fixed
 * when the shell is created; the shell records every command issued and
 * every `[JOB_OUT]` marker line printed, in order.
 */
module Exec {

  /** An argument vector and the directory to run it in ("" = the process's current directory). */
  datatype Cmd = Cmd(argv: seq<string>, dir: string)

  /** The combined output of a command, and whether it started and exited with status zero. */
  datatype Outcome = Outcome(output: string, ok: bool)

  class Shell {
    /** What the external programs answer. */
    const respond: Cmd -> Outcome
    /** The commands issued so far. */
    var issued: seq<Cmd>
    /** The `[JOB_OUT]` lines printed so far. */
    var jobOut: seq<string>

    constructor (respond: Cmd -> Outcome)
      ensures this.respond == respond
      ensures issued == [] && jobOut == []
    {
      this.respond := respond;
      issued := [];
      jobOut := [];
    }

    /** `CMD{argv, dir}.Run()`: issues one command and reports its outcome. */
    method Run(c: Cmd) returns (o: Outcome)
      modifies this
      ensures o == respond(c)
      ensures issued == old(issued) + [c] && jobOut == old(jobOut)
    {
      o := respond(c);
      issued := issued + [c];
    }

    /** Prints one `[JOB_OUT]` marker line. */
    method Emit(line: string)
      modifies this
      ensures jobOut == old(jobOut) + [line] && issued == old(issued)
    {
      jobOut := jobOut + [line];
    }
  }
}
