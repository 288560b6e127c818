/** The parsed command line both entry points share, and the commands an early exit may run. */
module Flags {
  import opened Wrappers

  /** The argparse namespace: store-true flags, and `--set-key [API_KEY]`, which is None when the
      flag is absent or given bare (`const=None`). */
  datatype Args = Args(
    stream: bool,
    reset: bool,
    summary: bool,
    env: bool,
    setKey: Option<string>,
    ping: bool,
    log: bool,
    clearLog: bool,
    update: bool,
    uninstall: bool,
    version: bool)

  datatype Command = Reset | Env | Update | Uninstall | SetKey | Ping | Log | ClearLog | Version

  /** The order in which both entry points test the commands. */
  function Rank(c: Command): nat {
    match c
    case Reset => 0
    case Env => 1
    case Update => 2
    case Uninstall => 3
    case SetKey => 4
    case Ping => 5
    case Log => 6
    case ClearLog => 7
    case Version => 8
  }

  /** Python truthiness of an optional string. */
  predicate Truthy(s: Option<string>) {
    s.Some? && s.value != ""
  }

  /** How `main` ends: stopped after an early exit, exited with a status, or went on to the
      conversation (one-shot or REPL) with the given streaming switch. */
  datatype After = Stop | Exit(code: int) | Converse(stream: bool)
}
