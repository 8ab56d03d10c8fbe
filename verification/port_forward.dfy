/**
 * The `--port-forward` value `remote-id:local-port:remote-port[:remote-host]`
 * and its parser (src/main.rs, lines 83-107 of the command-line build).
 *
 * What the parser checks is only: at least three `:`-separated fields, and
 * fields 1 and 2 each parse as an i32 (local port first). It does not check
 * that the remote id or host is non-empty or that the ports are
 * non-negative, and it ignores every field after the fourth.
 */
module PortForward {
  import opened Wrappers
  import opened Text
  import opened IntParse

  const DefaultRemoteHost: string := "localhost"

  /** A tunnel request, as handed to the port-forward starter. */
  datatype TunnelSpec = TunnelSpec(remoteId: string, localPort: int, remotePort: int, remoteHost: string)

  /** The three ways the parser refuses a value; each ends the process before any network call. */
  datatype SpecError =
    | WrongOptions     // fewer than three fields
    | WrongLocalPort   // field 1 is not an i32
    | WrongRemotePort  // field 1 is, field 2 is not

  /**
   * Parse a `--port-forward` value. The fields are the `:`-separated pieces
   * of `p`; the local port is checked before the remote port, the host is
   * field 3 when there is one and "localhost" otherwise.
   */
  function ParsePortForward(p: string): (r: Result<TunnelSpec, SpecError>)
    ensures r == Failure(WrongOptions) <==> Occurrences(p, ':') < 2
    ensures r.Success? ==> InI32(r.value.localPort) && InI32(r.value.remotePort)
    ensures r.Success? ==> ':' !in r.value.remoteId && ':' !in r.value.remoteHost
  {
    var options := Split(p, ':');
    if |options| < 3 then Failure(WrongOptions)
    else match ParseI32(options[1])
      case None => Failure(WrongLocalPort)
      case Some(port) =>
        match ParseI32(options[2])
        case None => Failure(WrongRemotePort)
        case Some(remotePort) =>
          var remoteHost := if |options| > 3 then options[3] else DefaultRemoteHost;
          Success(TunnelSpec(options[0], port, remotePort, remoteHost))
  }

  /**
   * How each outcome of the parser relates to the fields of the input:
   * which error is reported for which field, and on success that every
   * value is taken verbatim from its field (the host defaulting to
   * "localhost" when there are exactly three fields).
   */
  lemma ParseOutcome(p: string)
    ensures var fs := Split(p, ':');
      && (ParsePortForward(p) == Failure(WrongLocalPort) <==>
            |fs| >= 3 && ParseI32(fs[1]).None?)
      && (ParsePortForward(p) == Failure(WrongRemotePort) <==>
            |fs| >= 3 && ParseI32(fs[1]).Some? && ParseI32(fs[2]).None?)
      && (ParsePortForward(p).Success? <==>
            |fs| >= 3 && ParseI32(fs[1]).Some? && ParseI32(fs[2]).Some?)
      && (ParsePortForward(p).Success? ==>
            var t := ParsePortForward(p).value;
            && t.remoteId == fs[0]
            && Some(t.localPort) == ParseI32(fs[1])
            && Some(t.remotePort) == ParseI32(fs[2])
            && t.remoteHost == (if |fs| == 3 then DefaultRemoteHost else fs[3]))
  {
  }

  /** The remote id is exactly the text before the first `:`. */
  lemma RemoteIdIsFirstField(p: string)
    requires ParsePortForward(p).Success?
    ensures var id := ParsePortForward(p).value.remoteId;
      |id| < |p| && p[..|id|] == id && p[|id|] == ':'
  {
  }

  /** Rendering of a tunnel request with its host as the fourth field. */
  function FormatSpec(t: TunnelSpec): string
  {
    t.remoteId + ":" + FormatInt(t.localPort) + ":" + FormatInt(t.remotePort) + ":" + t.remoteHost
  }

  /** Rendering of a tunnel request in the three-field form, leaving the host out. */
  function FormatShortSpec(t: TunnelSpec): string
  {
    t.remoteId + ":" + FormatInt(t.localPort) + ":" + FormatInt(t.remotePort)
  }

  /** True when a request can be written as a `--port-forward` value at all. */
  predicate Representable(t: TunnelSpec)
  {
    ':' !in t.remoteId && ':' !in t.remoteHost && InI32(t.localPort) && InI32(t.remotePort)
  }

  lemma NoColonInNumber(v: int)
    ensures ':' !in FormatInt(v)
  {
  }

  /** Every representable request survives rendering and parsing back. */
  lemma ParseFormatSpec(t: TunnelSpec)
    requires Representable(t)
    ensures ParsePortForward(FormatSpec(t)) == Success(t)
  {
    var fs := [t.remoteId, FormatInt(t.localPort), FormatInt(t.remotePort), t.remoteHost];
    NoColonInNumber(t.localPort);
    NoColonInNumber(t.remotePort);
    assert Join(fs, ':') == FormatSpec(t) by {
      assert Join(fs[3..], ':') == t.remoteHost;
      assert Join(fs[2..], ':') == FormatInt(t.remotePort) + ":" + t.remoteHost;
      assert Join(fs[1..], ':') == FormatInt(t.localPort) + ":" + FormatInt(t.remotePort) + ":" + t.remoteHost;
    }
    SplitJoin(fs, ':');
    ParseFormat(t.localPort);
    ParseFormat(t.remotePort);
  }

  /** The three-field form yields the same request with the host "localhost". */
  lemma ParseFormatShortSpec(t: TunnelSpec)
    requires Representable(t)
    ensures ParsePortForward(FormatShortSpec(t)) == Success(t.(remoteHost := DefaultRemoteHost))
  {
    var fs := [t.remoteId, FormatInt(t.localPort), FormatInt(t.remotePort)];
    NoColonInNumber(t.localPort);
    NoColonInNumber(t.remotePort);
    assert Join(fs, ':') == FormatShortSpec(t) by {
      assert Join(fs[2..], ':') == FormatInt(t.remotePort);
      assert Join(fs[1..], ':') == FormatInt(t.localPort) + ":" + FormatInt(t.remotePort);
    }
    SplitJoin(fs, ':');
    ParseFormat(t.localPort);
    ParseFormat(t.remotePort);
  }

  /** Once there are four fields, anything appended after another `:` is ignored. */
  lemma ExtraFieldsIgnored(p: string, extra: string)
    requires Occurrences(p, ':') >= 3
    ensures ParsePortForward(p + ":" + extra) == ParsePortForward(p)
  {
    SplitAppend(p, extra, ':');
    var fs := Split(p, ':');
    var gs := Split(p + ":" + extra, ':');
    assert gs == fs + Split(extra, ':');
    assert |gs| > 3 && gs[0] == fs[0] && gs[1] == fs[1] && gs[2] == fs[2] && gs[3] == fs[3];
  }

  /*
   * Concrete inputs. Each example takes its input as a parameter fixed by
   * its precondition, so that the verifier reasons from the fields rather
   * than unrolling the parser on a literal.
   */

  /** Two fields are too few. */
  lemma ExampleTooFewFields(p: string)
    requires p == "only:two"
    ensures ParsePortForward(p) == Failure(WrongOptions)
  {
    assert Join(["only", "two"], ':') == p;
    SplitJoin(["only", "two"], ':');
  }

  /** The local port is blamed even when the remote port is bad too. */
  lemma ExampleBadLocalPort(p: string)
    requires p == "id:abc:xyz"
    ensures ParsePortForward(p) == Failure(WrongLocalPort)
  {
    assert Join(["abc", "xyz"], ':') == "abc:xyz";
    assert Join(["id", "abc", "xyz"], ':') == p;
    SplitJoin(["id", "abc", "xyz"], ':');
    RejectsStrayCharacter("abc", 0);
  }

  /** A remote port with a space in it is rejected; nothing trims it. */
  lemma ExampleBadRemotePort(p: string)
    requires p == "id:80: 80"
    ensures ParsePortForward(p) == Failure(WrongRemotePort)
  {
    assert Join(["80", " 80"], ':') == "80: 80";
    assert Join(["id", "80", " 80"], ':') == p;
    SplitJoin(["id", "80", " 80"], ':');
    assert ParseI32("80") == Some(80) by {
      assert "80"[..1] == "8";
      assert DigitsValue("8") == 8;
    }
    RejectsStrayCharacter(" 80", 0);
  }

  /** An empty id, a negative port, a `+` sign and an empty host are all accepted. */
  lemma ExampleLenient(p: string)
    requires p == ":-1:+2:"
    ensures ParsePortForward(p) == Success(TunnelSpec("", -1, 2, ""))
  {
    assert Join(["+2", ""], ':') == "+2:";
    assert Join(["-1", "+2", ""], ':') == "-1:+2:";
    assert Join(["", "-1", "+2", ""], ':') == p;
    SplitJoin(["", "-1", "+2", ""], ':');
    assert ParseI32("-1") == Some(-1) by {
      assert "-1"[1..] == "1";
    }
    assert ParseI32("+2") == Some(2) by {
      assert "+2"[1..] == "2";
    }
  }
}
