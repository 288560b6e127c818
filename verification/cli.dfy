/** `blackcortex_cli/main.py`: the early-exit table and the order of checks in `main`. */
module Cli {
  import opened Wrappers
  import opened Flags
  import Gpt

  /** Whether the packaged entry point dispatches a command: `getattr(args, name)` must be truthy,
      so a bare `--set-key` (None) or an empty key does not count. */
  predicate Flagged(a: Args, c: Command) {
    match c
    case Reset => a.reset
    case Env => a.env
    case Update => a.update
    case Uninstall => a.uninstall
    case SetKey => Truthy(a.setKey)
    case Ping => a.ping
    case Log => a.log
    case ClearLog => a.clearLog
    case Version => a.version
  }

  /** The `handlers` dict in insertion order. */
  function Handlers(): (hs: seq<Command>)
    ensures |hs| == 9
    ensures forall i :: 0 <= i < |hs| ==> Rank(hs[i]) == i
  {
    [Reset, Env, Update, Uninstall, SetKey, Ping, Log, ClearLog, Version]
  }

  /** The loop over the handlers: the index of the first one whose flag is truthy, or the table's
      length when there is none. */
  function FirstFlagged(a: Args, hs: seq<Command>, from: nat): (k: nat)
    requires from <= |hs|
    ensures from <= k <= |hs|
    ensures forall j :: from <= j < k ==> !Flagged(a, hs[j])
    ensures k < |hs| ==> Flagged(a, hs[k])
    decreases |hs| - from
  {
    if from == |hs| then from
    else if Flagged(a, hs[from]) then from
    else FirstFlagged(a, hs, from + 1)
  }

  /** `handle_early_exits`: runs at most one handler, the first in table order whose flag is
      truthy, and returns True exactly when it ran one. `--summary` plays no part. */
  function HandleEarlyExits(a: Args): (r: (Option<Command>, bool))
    ensures r.1 <==> r.0.Some?
    ensures r.0.None? <==> forall c :: !Flagged(a, c)
    ensures r.0.Some? ==> Flagged(a, r.0.value)
    ensures r.0.Some? ==> forall c :: Rank(c) < Rank(r.0.value) ==> !Flagged(a, c)
  {
    var hs := Handlers();
    var k := FirstFlagged(a, hs, 0);
    assert forall c :: hs[Rank(c)] == c;
    if k < |hs| then (Some(hs[k]), true) else (None, false)
  }

  /** `main` after parsing: early exits run before the API-key check, so they need no key; with
      none, a missing key exits with status 1, and so does a client that cannot be created. */
  function Main(a: Args, apiKey: Option<string>, clientOk: bool): (r: (Option<Command>, After))
    ensures r.0 == HandleEarlyExits(a).0
    ensures r.0.Some? ==> r.1 == Stop
    ensures r.0.None? && !Truthy(apiKey) ==> r.1 == Exit(1)
    ensures r.0.None? && Truthy(apiKey) ==> r.1 == (if clientOk then Converse(a.stream) else Exit(1))
  {
    var (ran, stop) := HandleEarlyExits(a);
    if stop then (ran, Stop)
    else if !Truthy(apiKey) then (ran, Exit(1))
    else if !clientOk then (ran, Exit(1))
    else (ran, Converse(a.stream))
  }

  /** Outside `--set-key` and `--version` the two entry points pick the same command. */
  lemma AgreesWithGptWhenKeyGiven(a: Args, argv: seq<string>)
    requires !a.version
    requires Truthy(a.setKey) || (a.setKey.None? && "--set-key" !in argv)
    ensures HandleEarlyExits(a).0 == Gpt.HandleEarlyExits(a, argv).0
  {
    var r1 := HandleEarlyExits(a).0;
    var r2 := Gpt.HandleEarlyExits(a, argv).0;
    assert forall c :: Flagged(a, c) == Gpt.Flagged(a, argv, c);
    if r1.Some? && r2.Some? {
      if Rank(r1.value) < Rank(r2.value) {
        assert false;
      } else if Rank(r2.value) < Rank(r1.value) {
        assert false;
      }
    }
  }

  /** A bare `--set-key` dispatches nothing here, but runs the key prompt in `gpt.py`. */
  lemma BareSetKeyDiffers()
    ensures var a := Args(false, false, false, false, None, false, false, false, false, false, false);
              && HandleEarlyExits(a) == (None, false)
              && Gpt.HandleEarlyExits(a, ["gpt", "--set-key"]) == (Some(SetKey), false)
  {
  }
}
