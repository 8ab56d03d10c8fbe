/**
 * The command-line build's `main` (src/main.rs, lines 36-137) and the
 * headless build's `main` (lines 8-17).
 *
 * Every collaborator the entry point calls (global init and cleanup, the
 * two diagnostic probes, the port-forward starter, the connection tester,
 * the server starter) is recorded as an `Event` appended to a trace, in
 * call order. The process-wide rendezvous-server override is a field
 * written at most once. What the collaborators themselves return or do is
 * not modelled; the results the entry point depends on (whether global
 * init succeeded, the stored access token, the address normalisation of
 * `check_port`) are parameters.
 */
module Cli {
  import opened Wrappers
  import opened Text
  import opened IntParse
  import opened PortForward

  /**
   * The default rendezvous port handed to `check_port` with an `--id-server`
   * value. The entry point names it only as `config::RENDEZVOUS_PORT`
   * (src/main.rs:79), whose definition is not part of this model; 21116 is
   * the port its `--id-server` help text gives (src/main.rs:64). Nothing
   * here depends on the number, since `check_port` is a parameter.
   */
  const RendezvousPort: int := 21116

  /** The command line after argument parsing: five single-valued options and the `--server` flag. */
  datatype Args = Args(
    portForward: Option<string>,
    connect: Option<string>,
    password: Option<string>,
    idServer: Option<string>,
    key: Option<string>,
    server: bool)

  /** One call from the entry point into a collaborator. */
  datatype Event =
    | Init
    | SetRendezvous(server: string)
    | TestRendezvous
    | TestNat
    | StartOnePortForward(remoteId: string, password: string, localPort: int,
                          remoteHost: string, remotePort: int, key: string, token: string)
    | ConnectTest(target: string, key: string, token: string)
    | StartServer(isServer: bool, noServer: bool)
    | Clean

  /** The requested action, chosen by the first present option in the order port-forward, connect, server. */
  datatype Action =
    | Forward(spec: TunnelSpec)
    | Rejected(error: SpecError)
    | Connect(target: string)
    | Serve
    | Idle

  /** The action for a `--port-forward` value: forward when it parses, rejected with the parser's error otherwise. */
  function ForwardAction(p: string): (a: Action)
    ensures a.Forward? || a.Rejected?
    ensures a.Forward? <==> ParsePortForward(p).Success?
    ensures a.Forward? ==> ParsePortForward(p) == Success(a.spec)
    ensures a.Rejected? ==> ParsePortForward(p) == Failure(a.error)
  {
    match ParsePortForward(p)
    case Success(spec) => Forward(spec)
    case Failure(e) => Rejected(e)
  }

  /** The session key: `--key`, or empty when absent. */
  function KeyOf(args: Args): string { args.key.GetOr("") }

  /** The peer password: `--password`, or empty when absent. */
  function PasswordOf(args: Args): string { args.password.GetOr("") }

  /**
   * The action dispatcher. Exactly one action is chosen, by fixed
   * priority: a port-forward value wins over a connect target, which wins
   * over the server flag; with none of the three nothing is done. A
   * port-forward value that does not parse is rejected rather than
   * falling through to a lower-priority action.
   */
  function Dispatch(args: Args): (a: Action)
    ensures (a.Forward? || a.Rejected?) <==> args.portForward.Some?
    ensures a.Connect? <==> args.portForward.None? && args.connect.Some?
    ensures a.Serve? <==> args.portForward.None? && args.connect.None? && args.server
    ensures a.Idle? <==> args.portForward.None? && args.connect.None? && !args.server
    ensures a.Forward? ==> ParsePortForward(args.portForward.value) == Success(a.spec)
    ensures a.Rejected? ==> ParsePortForward(args.portForward.value) == Failure(a.error)
    ensures a.Connect? ==> a.target == args.connect.value
  {
    if args.portForward.Some? then ForwardAction(args.portForward.value)
    else if args.connect.Some? then Connect(args.connect.value)
    else if args.server then Serve
    else Idle
  }

  /** The override write, when `--id-server` is given: its value normalised by `checkPort`. */
  function OverrideEvents(args: Args, checkPort: (string, int) -> string): seq<Event>
  {
    if args.idServer.Some? then [SetRendezvous(checkPort(args.idServer.value, RendezvousPort))] else []
  }

  /**
   * The calls an action makes: the two probes before a port forward or a
   * connection test, one call of the matching collaborator, and nothing for
   * a rejected spec or when nothing was asked for.
   */
  function ActionEvents(a: Action, key: string, password: string, token: string): seq<Event>
  {
    match a
    case Forward(t) =>
      [TestRendezvous, TestNat,
       StartOnePortForward(t.remoteId, password, t.localPort, t.remoteHost, t.remotePort, key, token)]
    case Rejected(_) => []
    case Connect(target) => [TestRendezvous, TestNat, ConnectTest(target, key, token)]
    case Serve => [StartServer(true, false)]
    case Idle => []
  }

  /**
   * The calls of one run of the command-line entry point: init; if it
   * failed, nothing more. Otherwise the override write, the chosen
   * action's calls, and cleanup unless the port-forward spec was rejected.
   */
  function CliTrace(args: Args, initOk: bool, accessToken: string, checkPort: (string, int) -> string): seq<Event>
  {
    if !initOk then [Init]
    else
      var a := Dispatch(args);
      [Init] + OverrideEvents(args, checkPort)
        + ActionEvents(a, KeyOf(args), PasswordOf(args), accessToken)
        + (if a.Rejected? then [] else [Clean])
  }

  /** The process: the calls made so far, and the rendezvous-server override (initially empty). */
  class Process {
    var trace: seq<Event>
    var rendezvousServer: string

    constructor ()
      ensures trace == [] && rendezvousServer == ""
    {
      trace := [];
      rendezvousServer := "";
    }

    /** Record one collaborator call. */
    method Call(e: Event)
      modifies this
      ensures trace == old(trace) + [e]
      ensures rendezvousServer == old(rendezvousServer)
    {
      trace := trace + [e];
    }

    /**
     * The command-line build's entry point, step by step with its early
     * returns. `initOk` is what global init reports, `accessToken` what the
     * local configuration holds under "access_token", and `checkPort` the
     * address normalisation applied to `--id-server`.
     */
    method CliMain(args: Args, initOk: bool, accessToken: string, checkPort: (string, int) -> string)
      modifies this
      ensures trace == old(trace) + CliTrace(args, initOk, accessToken, checkPort)
      ensures rendezvousServer ==
        if initOk && args.idServer.Some? then checkPort(args.idServer.value, RendezvousPort)
        else old(rendezvousServer)
    {
      Call(Init);
      if !initOk {
        return;
      }
      if args.idServer.Some? {
        var server := checkPort(args.idServer.value, RendezvousPort);
        rendezvousServer := server;
        Call(SetRendezvous(server));
      }
      var completed := DispatchCommand(args, accessToken);
      if !completed {
        return;
      }
      Call(Clean);
    }

    /**
     * The action part of the command-line entry point: the first of
     * `--port-forward`, `--connect` and `--server` that is present decides
     * what runs. `completed` is false only when the port-forward spec was
     * rejected, the one case in which the entry point returns without
     * cleanup.
     */
    method DispatchCommand(args: Args, accessToken: string) returns (completed: bool)
      modifies this
      ensures completed <==> !Dispatch(args).Rejected?
      ensures trace == old(trace) + ActionEvents(Dispatch(args), KeyOf(args), PasswordOf(args), accessToken)
      ensures rendezvousServer == old(rendezvousServer)
    {
      if args.portForward.Some? {
        completed := PortForwardCommand(args.portForward.value, args, accessToken);
      } else if args.connect.Some? {
        Call(TestRendezvous);
        Call(TestNat);
        var key := args.key.GetOr("");
        var token := accessToken;
        Call(ConnectTest(args.connect.value, key, token));
        completed := true;
      } else if args.server {
        Call(StartServer(true, false));
        completed := true;
      } else {
        completed := true;
      }
    }

    /**
     * The `--port-forward` branch of the command-line entry point: split the
     * value on `:`, give up on fewer than three fields, then on a bad local
     * port, then on a bad remote port (each time before any call); otherwise
     * run the two probes and start the forward with the key, password and
     * stored token. `completed` tells the caller whether to go on to cleanup.
     */
    method PortForwardCommand(p: string, args: Args, accessToken: string) returns (completed: bool)
      modifies this
      ensures completed <==> ParsePortForward(p).Success?
      ensures trace == old(trace) + ActionEvents(ForwardAction(p), KeyOf(args), PasswordOf(args), accessToken)
      ensures rendezvousServer == old(rendezvousServer)
    {
      var options := Split(p, ':');
      if |options| < 3 {
        return false;
      }
      var port := 0;
      match ParseI32(options[1]) {
        case Some(v) => port := v;
        case None => return false;
      }
      var remotePort := 0;
      match ParseI32(options[2]) {
        case Some(v) => remotePort := v;
        case None => return false;
      }
      var remoteHost := DefaultRemoteHost;
      if |options| > 3 {
        remoteHost := options[3];
      }
      Call(TestRendezvous);
      Call(TestNat);
      var key := args.key.GetOr("");
      var token := accessToken;
      var password := args.password.GetOr("");
      Call(StartOnePortForward(options[0], password, port, remoteHost, remotePort, key, token));
      completed := true;
    }

    /**
     * The headless build's entry point: init; if it succeeded, the two
     * probes in order and cleanup. Nothing touches the override.
     */
    method HeadlessMain(initOk: bool)
      modifies this
      ensures trace == old(trace) + (if initOk then [Init, TestRendezvous, TestNat, Clean] else [Init])
      ensures rendezvousServer == old(rendezvousServer)
    {
      Call(Init);
      if !initOk {
        return;
      }
      Call(TestRendezvous);
      Call(TestNat);
      Call(Clean);
    }
  }
}
