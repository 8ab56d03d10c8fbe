/**
 * What the command-line entry point promises about the calls it makes, as
 * properties of `CliTrace` (which `Process.CliMain` is proved to append):
 * init first and only once; nothing after a failed init; cleanup exactly
 * once and last unless the port-forward spec was rejected; the override
 * written at most once and before any probe or action; the two probes in
 * order right before a forward or a connection test and nowhere else;
 * exactly one action collaborator, chosen by priority; and the arguments
 * each collaborator receives. These cover runs whose command line was
 * accepted by the argument parser; a usage error, `--help` or `--version`
 * ends the process inside argument parsing, after init and without cleanup.
 */
module Lifecycle {
  import opened Wrappers
  import opened Text
  import opened IntParse
  import opened PortForward
  import opened Cli

  /** Number of events in `t` that satisfy `p`. */
  function Count(t: seq<Event>, p: Event -> bool): nat
  {
    if |t| == 0 then 0 else (if p(t[0]) then 1 else 0) + Count(t[1..], p)
  }

  predicate IsInit(e: Event) { e.Init? }
  predicate IsOverride(e: Event) { e.SetRendezvous? }
  predicate IsProbe(e: Event) { e.TestRendezvous? || e.TestNat? }
  predicate IsAction(e: Event) { e.StartOnePortForward? || e.ConnectTest? || e.StartServer? }
  predicate IsNetwork(e: Event) { IsProbe(e) || IsAction(e) }
  predicate IsClean(e: Event) { e.Clean? }

  lemma {:induction false} CountAppend(a: seq<Event>, b: seq<Event>, p: Event -> bool)
    ensures Count(a + b, p) == Count(a, p) + Count(b, p)
    decreases |a|
  {
    if |a| > 0 {
      assert (a + b)[1..] == a[1..] + b;
      CountAppend(a[1..], b, p);
    } else {
      assert a + b == b;
    }
  }

  /** `Count` of a sequence of at most three events, written out. */
  function CountFew(s: seq<Event>, p: Event -> bool): nat
    requires |s| <= 3
  {
    (if |s| >= 1 && p(s[0]) then 1 else 0)
      + (if |s| >= 2 && p(s[1]) then 1 else 0)
      + (if |s| >= 3 && p(s[2]) then 1 else 0)
  }

  lemma {:induction false} CountOfFew(s: seq<Event>, p: Event -> bool)
    requires |s| <= 3
    ensures Count(s, p) == CountFew(s, p)
  {
    if |s| >= 1 {
      CountOfFew(s[1..], p);
    }
  }

  /** How often the events satisfying `p` occur in each of the trace's four segments. */
  lemma {:induction false} Segments(args: Args, initOk: bool, accessToken: string, checkPort: (string, int) -> string, p: Event -> bool)
    requires initOk
    ensures var a := Dispatch(args);
      var o := OverrideEvents(args, checkPort);
      var ae := ActionEvents(a, KeyOf(args), PasswordOf(args), accessToken);
      var c: seq<Event> := if a.Rejected? then [] else [Clean];
      |o| <= 1 && |ae| <= 3 &&
      Count(CliTrace(args, initOk, accessToken, checkPort), p)
        == CountFew([Init], p) + CountFew(o, p) + CountFew(ae, p) + CountFew(c, p)
  {
    var a := Dispatch(args);
    var o := OverrideEvents(args, checkPort);
    var ae := ActionEvents(a, KeyOf(args), PasswordOf(args), accessToken);
    var c: seq<Event> := if a.Rejected? then [] else [Clean];
    CountAppend([Init] + o + ae, c, p);
    CountAppend([Init] + o, ae, p);
    CountAppend([Init], o, p);
    CountOfFew([Init], p);
    CountOfFew(o, p);
    CountOfFew(ae, p);
    CountOfFew(c, p);
  }

  /**
   * Global init runs first and exactly once; when it fails the run makes no
   * other call, cleanup included. When it succeeds, cleanup runs exactly
   * once, as the last call, unless the port-forward spec was rejected, in
   * which case it does not run at all.
   */
  lemma LifecycleGuard(args: Args, initOk: bool, accessToken: string, checkPort: (string, int) -> string)
    ensures var t := CliTrace(args, initOk, accessToken, checkPort);
      && t[0] == Init && Count(t, IsInit) == 1
      && (!initOk ==> t == [Init])
      && Count(t, IsClean) == (if initOk && !Dispatch(args).Rejected? then 1 else 0)
      && (Count(t, IsClean) == 1 ==> t[|t| - 1] == Clean)
  {
    if initOk {
      Segments(args, initOk, accessToken, checkPort, IsInit);
      Segments(args, initOk, accessToken, checkPort, IsClean);
    }
  }

  /**
   * Exactly one action collaborator is called for a forward, a connection
   * test or a server start, and none for a rejected spec or when nothing is
   * asked; the two probes run for a forward or a connection test only.
   */
  lemma ExactlyOneAction(args: Args, initOk: bool, accessToken: string, checkPort: (string, int) -> string)
    ensures var t := CliTrace(args, initOk, accessToken, checkPort);
      var a := Dispatch(args);
      && Count(t, IsAction) == (if initOk && (a.Forward? || a.Connect? || a.Serve?) then 1 else 0)
      && Count(t, IsProbe) == (if initOk && (a.Forward? || a.Connect?) then 2 else 0)
  {
    if initOk {
      Segments(args, initOk, accessToken, checkPort, IsAction);
      Segments(args, initOk, accessToken, checkPort, IsProbe);
    }
  }

  /**
   * The rendezvous probe and then the NAT probe run immediately before a
   * forward or a connection test is started.
   */
  lemma ProbesPrecedeAction(args: Args, initOk: bool, accessToken: string, checkPort: (string, int) -> string, i: nat)
    requires var t := CliTrace(args, initOk, accessToken, checkPort);
      i < |t| && (t[i].StartOnePortForward? || t[i].ConnectTest?)
    ensures var t := CliTrace(args, initOk, accessToken, checkPort);
      2 <= i && t[i - 2] == TestRendezvous && t[i - 1] == TestNat
  {
  }

  /** The override is written once when init succeeded and `--id-server` was given, and never otherwise. */
  lemma OverrideWrittenOnce(args: Args, initOk: bool, accessToken: string, checkPort: (string, int) -> string)
    ensures Count(CliTrace(args, initOk, accessToken, checkPort), IsOverride)
      == (if initOk && args.idServer.Some? then 1 else 0)
  {
    if initOk {
      Segments(args, initOk, accessToken, checkPort, IsOverride);
    }
  }

  /**
   * The override is written right after init, with the normalised
   * `--id-server` value, and so before any probe or action.
   */
  lemma OverrideBeforeDispatch(args: Args, initOk: bool, accessToken: string, checkPort: (string, int) -> string)
    ensures var t := CliTrace(args, initOk, accessToken, checkPort);
      && (forall i :: 0 <= i < |t| && t[i].SetRendezvous? ==>
            i == 1 && t[i] == SetRendezvous(checkPort(args.idServer.value, RendezvousPort)))
      && (forall i, j :: 0 <= i < |t| && 0 <= j < |t| && t[i].SetRendezvous? && IsNetwork(t[j]) ==> i < j)
  {
    var t := CliTrace(args, initOk, accessToken, checkPort);
    if initOk {
      var o := OverrideEvents(args, checkPort);
      var rest := ActionEvents(Dispatch(args), KeyOf(args), PasswordOf(args), accessToken)
        + (if Dispatch(args).Rejected? then [] else [Clean]);
      assert t == [Init] + o + rest;
      assert forall e :: e in rest ==> !e.SetRendezvous?;
      forall i | 1 + |o| <= i < |t|
        ensures t[i] == rest[i - 1 - |o|] && !t[i].SetRendezvous?
      {
      }
      assert forall j :: 0 <= j <= |o| ==> !IsNetwork(t[j]);
    }
  }

  /**
   * A rejected port-forward spec reaches no network collaborator (neither
   * probe, no action) and skips cleanup.
   */
  lemma RejectedSpecIsSilent(args: Args, initOk: bool, accessToken: string, checkPort: (string, int) -> string)
    requires Dispatch(args).Rejected?
    ensures var t := CliTrace(args, initOk, accessToken, checkPort);
      forall i :: 0 <= i < |t| ==> !IsNetwork(t[i]) && !IsClean(t[i])
  {
  }

  /**
   * First match wins: with a port-forward value no connection test and no
   * server start happen, whatever else was given; with a connect target
   * and no port-forward value, no server start happens.
   */
  lemma DispatchPriority(args: Args, initOk: bool, accessToken: string, checkPort: (string, int) -> string)
    ensures var t := CliTrace(args, initOk, accessToken, checkPort);
      && (args.portForward.Some? ==> forall i :: 0 <= i < |t| ==> !t[i].ConnectTest? && !t[i].StartServer?)
      && (args.connect.Some? ==> forall i :: 0 <= i < |t| ==> !t[i].StartServer?)
      && (forall i :: 0 <= i < |t| && t[i].StartServer? ==>
            t[i] == StartServer(true, false) && args.portForward.None? && args.connect.None? && args.server)
  {
  }

  /**
   * The forward is started with the values of the spec taken verbatim:
   * field 0 as the id, the i32 values of fields 1 and 2 as the ports,
   * field 3 or "localhost" as the host; `--key` and `--password` or the
   * empty string; and the stored access token, whatever the password.
   */
  lemma ForwardArguments(args: Args, initOk: bool, accessToken: string, checkPort: (string, int) -> string, i: nat)
    requires var t := CliTrace(args, initOk, accessToken, checkPort);
      i < |t| && t[i].StartOnePortForward?
    ensures var e := CliTrace(args, initOk, accessToken, checkPort)[i];
      && args.portForward.Some?
      && var fs := Split(args.portForward.value, ':');
      && |fs| >= 3
      && e.remoteId == fs[0]
      && ParseI32(fs[1]) == Some(e.localPort)
      && ParseI32(fs[2]) == Some(e.remotePort)
      && e.remoteHost == (if |fs| == 3 then "localhost" else fs[3])
      && e.key == (if args.key.Some? then args.key.value else "")
      && e.password == (if args.password.Some? then args.password.value else "")
      && e.token == accessToken
  {
  }

  /** The connection test gets the `--connect` target, the key (or "") and the stored access token. */
  lemma ConnectArguments(args: Args, initOk: bool, accessToken: string, checkPort: (string, int) -> string, i: nat)
    requires var t := CliTrace(args, initOk, accessToken, checkPort);
      i < |t| && t[i].ConnectTest?
    ensures var e := CliTrace(args, initOk, accessToken, checkPort)[i];
      && args.portForward.None?
      && args.connect == Some(e.target)
      && e.key == (if args.key.Some? then args.key.value else "")
      && e.token == accessToken
  {
  }
}
