# RustDesk command-line entry point, modelled in Dafny

This project models the entry point of the RustDesk client, `src/main.rs`. It covers two of the file's three build variants.

The **command-line build** (`feature = "cli"`) works in this order:
- It runs global init.
- It optionally installs a custom rendezvous (ID) server, normalised by `check_port`, into the process-wide `EXE_RENDEZVOUS_SERVER`.
- It picks one action by fixed priority:
  - `--port-forward remote-id:local-port:remote-port[:remote-host]` starts a tunnel;
  - otherwise `--connect <id>` runs a connection test;
  - otherwise `--server` starts a server;
  - otherwise nothing happens.
- A tunnel or a connection test is preceded by the rendezvous probe and then the NAT-type probe.
- It finishes with global cleanup.

A port-forward value that does not parse ends the process early, without any network call and without cleanup.

The **headless build** (Android, iOS, Flutter) runs global init. If that succeeds, it runs the two probes and then cleanup.

Modules:

- `Wrappers` (`wrappers.dfy`): `Option` and `Result`.
- `Text` (`text.dfy`): Rust's `str::split(':')`, meaning one more field than there are colons, with empty fields kept. Also its inverse, `Join`.
- `IntParse` (`int_parse.dfy`): Rust's `str::parse::<i32>`. It accepts an optional single sign and then one or more ASCII digits. There is no whitespace, the value must lie in [-2^31, 2^31-1], and leading zeros are allowed. The module also has the decimal rendering `FormatInt` as its inverse.
- `PortForward` (`port_forward.dfy`): the tunnel request `TunnelSpec`, the three parse errors, and `ParsePortForward`.
- `Cli` (`cli.dfy`):
  - the parsed command line `Args`;
  - collaborator calls as `Event`s;
  - the dispatcher `Dispatch`;
  - `CliTrace`, the calls of one run as a function of its inputs;
  - the class `Process`. It holds the trace of calls made so far and the rendezvous override. Its methods `CliMain` and `HeadlessMain` follow the source's statements and early returns, and are proved to append exactly `CliTrace` and the headless sequence.
- `Lifecycle` (`lifecycle.dfy`): the ordering, counting and argument-flow properties of `CliTrace`.

From the parsed options onwards the model follows the code, including three places where a reader might expect stricter behaviour:

- A tunnel request is **not** checked for a non-empty remote id or host, and the ports are **not** checked to be non-negative. `"id:1:2:"` gives an empty host. `":-1:+2"` gives an empty id and a negative port. Both are accepted.
- Cleanup is **not** run after a rejected port-forward value. Lines 88, 95 and 102 return before `global_clean` at line 136. Among runs whose arguments parsed, this is the only way init can succeed without cleanup. Runs that stop in argument parsing are the other such path (see "## Left out").
- The access token is a plain string. `LocalConfig::get_option` returns a `String`, empty when nothing is stored, not an optional value.

## Model

| member | source | states |
|---|---|---|
| `Text.Split` | src/main.rs:85 | the pieces of the value between `:` characters: one more piece than there are colons, none containing a colon, and joined back with `:` they give the value |
| `Text.SplitJoin` | src/main.rs:85 | splitting recovers any non-empty list of colon-free fields from their join |
| `Text.SplitAppend` | src/main.rs:85 | the fields of `a + ":" + b` are the fields of `a` followed by those of `b` |
| `IntParse.ParseI32` | src/main.rs:91-98 | `parse::<i32>` succeeds exactly when the text is an optional sign followed by at least one digit, and its value is within the i32 range. On success the result is that value |
| `IntParse.ParseFormat` | src/main.rs:91-98 | every i32 value, rendered in decimal, parses back to itself |
| `IntParse.FormatParse` | src/main.rs:91-98 | parsed text without a `+` and without redundant leading zeros is exactly the decimal rendering of its value |
| `IntParse.ParseIgnoresPlusAndZeros` | src/main.rs:91-98 | a leading `0` or `+` in front of digits does not change what is parsed |
| `IntParse.RejectsStrayCharacter` | src/main.rs:91-98 | any character other than a digit, apart from one leading sign, makes parsing fail. This includes whitespace, so nothing is trimmed |
| `PortForward.ParsePortForward` | src/main.rs:85-107 | `WrongOptions` exactly when the value has fewer than two colons. On success both ports are in the i32 range, and the id and host contain no colon |
| `PortForward.ParseOutcome` | src/main.rs:86-107 | `WrongLocalPort` exactly when field 1 does not parse, whatever field 2 is. `WrongRemotePort` exactly when field 1 parses and field 2 does not. On success the id is field 0, the ports are the parsed values of fields 1 and 2, and the host is `"localhost"` for three fields and field 3 otherwise |
| `PortForward.RemoteIdIsFirstField` | src/main.rs:85-91 | the remote id is exactly the text before the first colon, and may be empty |
| `PortForward.ParseFormatSpec` | src/main.rs:85-107 | every tunnel request with colon-free id and host and i32 ports, written in four-field form, parses back to itself |
| `PortForward.ParseFormatShortSpec` | src/main.rs:104-107 | the same request written in three-field form parses with host `"localhost"` |
| `PortForward.ExtraFieldsIgnored` | src/main.rs:105-107 | once there are four fields, anything after a further colon makes no difference to the result |
| `PortForward.ExampleTooFewFields` | src/main.rs:86-89 | `"only:two"` is refused with `WrongOptions` |
| `PortForward.ExampleBadLocalPort` | src/main.rs:90-96 | `"id:abc:xyz"` is refused with `WrongLocalPort`, because the local port is checked first |
| `PortForward.ExampleBadRemotePort` | src/main.rs:97-103 | `"id:80: 80"` is refused with `WrongRemotePort`, because the space is not trimmed |
| `PortForward.ExampleLenient` | src/main.rs:85-107 | `":-1:+2:"` is accepted with an empty id, local port -1, remote port 2 and an empty host |
| `Cli.ForwardAction` | src/main.rs:83-107 | a port-forward value becomes a forward exactly when it parses, carrying the parsed request. Otherwise it is rejected, carrying the parser's specific error |
| `Cli.Dispatch` | src/main.rs:83-135 | first match wins: forward or rejection iff `--port-forward` is given; connection test iff it is absent and `--connect` is given; server iff both are absent and `--server` is set; nothing otherwise. The forward's request and the test's target are those of the arguments |
| `Cli.Process.CliMain` | src/main.rs:36-137 | the command-line entry point appends exactly `CliTrace` of its inputs to the calls made. It sets the rendezvous override to the normalised `--id-server` value only when init succeeded and the option was given |
| `Cli.Process.DispatchCommand` | src/main.rs:83-135 | the chosen action's calls are appended, and the run continues to cleanup unless the port-forward value was rejected |
| `Cli.Process.PortForwardCommand` | src/main.rs:83-123 | the port-forward branch makes the two probes and one forward call when the value parses, makes no call when it does not, and reports which of the two happened |
| `Cli.Process.HeadlessMain` | src/main.rs:9-17 | the headless entry point makes the calls init, rendezvous probe, NAT probe, cleanup in that order when init succeeds, and only init otherwise |
| `Lifecycle.LifecycleGuard` | src/main.rs:36-137 | init comes first and runs once. After a failed init nothing else runs, not even cleanup. Cleanup runs exactly once, as the last call, iff init succeeded and the port-forward value was not rejected |
| `Lifecycle.ExactlyOneAction` | src/main.rs:83-135 | exactly one action collaborator runs for a forward, a connection test or a server start, and none otherwise. The two probes run for a forward or a connection test and for nothing else |
| `Lifecycle.ProbesPrecedeAction` | src/main.rs:109-129 | the rendezvous probe and then the NAT probe are the two calls immediately before a forward or a connection test |
| `Lifecycle.OverrideWrittenOnce` | src/main.rs:78-82 | the override is written once when init succeeded and `--id-server` was given, and never otherwise |
| `Lifecycle.OverrideBeforeDispatch` | src/main.rs:78-83 | the override is written right after init, with the normalised `--id-server` value, before every probe and action |
| `Lifecycle.RejectedSpecIsSilent` | src/main.rs:86-102 | after a rejected port-forward value there is no probe, no action and no cleanup |
| `Lifecycle.DispatchPriority` | src/main.rs:83-134 | with `--port-forward` there is never a connection test or server start. With `--connect` there is never a server start. A server start is `start_server(true, false)`, and happens only with `--server` alone |
| `Lifecycle.ForwardArguments` | src/main.rs:104-123 | the forward gets these arguments: field 0 as the id, the parsed fields 1 and 2 as the ports, field 3 or `"localhost"` as the host, `--key` and `--password` (each empty when absent), and the stored access token whatever the password |
| `Lifecycle.ConnectArguments` | src/main.rs:124-129 | the connection test gets the `--connect` target, `--key` (empty when absent) and the stored access token, and happens only without `--port-forward` |

## Left out

- Argument parsing by clap (src/main.rs:43-74): usage errors, `--help` and version output are library behaviour. The model starts from the parsed options, the record `Cli.Args`. In the source, `get_matches()` at line 74 runs after a successful `global_init` (line 38), and on a usage error, `--help` or `--version` it ends the process there. So on those paths too, init succeeded and `global_clean` (line 136) never runs. `Cli.Args`, `CliTrace`, `Cli.Process.CliMain` and `Lifecycle.LifecycleGuard` cover only runs that got past argument parsing. The lemma's "cleanup iff init succeeded and the value was not rejected" holds for those runs only.
- `hbb_common::socket_client::check_port` (src/main.rs:79): its body is not part of this model. It is a function parameter of `CliMain`, applied to the `--id-server` value and the default rendezvous port 21116. So the model does not say whether a default port is appended.
- The collaborators (global init and cleanup, the two probes, `cli::start_one_port_forward`, `cli::connect_test`, `start_server`) are recorded only as trace events, with the arguments they receive. What they return and do is not modelled. The result of global init is the `initOk` parameter. `LocalConfig::get_option("access_token")` is the `accessToken` parameter.
- The graphical build (src/main.rs:19-34): the Win32 DPI call, `core_main` and `ui::start` are UI and OS plumbing.
- Build-time selection among the three `main` variants (`#[cfg]`): the command-line and headless variants are two separate methods. Nothing chooses between them.
- Logging (`eprintln!`, `env_logger` set-up, `log::info!` of the local id in the server branch) has no effect on the model.
- The `RwLock` around `EXE_RENDEZVOUS_SERVER` (src/main.rs:80): the override is a plain field of `Cli.Process`. It starts empty and is written at most once.
- The distinct error kinds of Rust's integer parser (empty, invalid digit, overflow) are collapsed into one failure. The entry point only tests for success.
