/**
 * The string building of the SSH tunnel: the "host:port" address of an
 * endpoint, the "user@host" destination and the "-L" forwarding spec handed to
 * the ssh command line client, and the guard that stops `StopCli` when no
 * control socket was recorded. The accept loop and the byte pumps are not
 * part of this model.
 */
module Tunnel {
  import opened Wrappers
  import opened Text

  /** A host and a port. Go's `int` port is modelled as an unbounded integer. */
  datatype Endpoint = Endpoint(Host: string, Port: int) {

    /** The "host:port" address handed to `net.Listen` and `ssh.Dial`. */
    function String(): (s: string)
      ensures |s| > |Host| && s[..|Host|] == Host && s[|Host|] == ':'
      ensures s[|Host| + 1..] == FormatInt(Port)
    {
      Host + ":" + FormatInt(Port)
    }
  }

  /** The part of `ssh.ClientConfig` the tunnel reads. */
  datatype ClientConfig = ClientConfig(User: string)

  /**
   * `SSHTunnel`: the three endpoints, the client configuration and the
   * control socket name that `StartCli` records (empty until then).
   */
  datatype SshTunnel = SshTunnel(
    Local: Endpoint,
    Server: Endpoint,
    Remote: Endpoint,
    Config: ClientConfig,
    socket: string)

  /** The message `StopCli` fails with when no socket was recorded. */
  const NoSocketMessage: string := "No socket identifier available"

  /** Splits an address at its last ':' into a host and a decimal port; the reference reading of `String`. */
  function ParseAddress(addr: string): (r: Option<Endpoint>)
    ensures r.Some? ==> |r.value.Host| < |addr| && addr[|r.value.Host|] == ':'
  {
    match LastIndexOf(addr, ':')
    case None => None
    case Some(i) =>
      match ParseInt(addr[i + 1..])
      case None => None
      case Some(port) => Some(Endpoint(addr[..i], port))
  }

  /**
   * `String` loses nothing: splitting it at its last ':' gives back the host
   * and the port, also when the host contains ':' and when the port is negative.
   */
  lemma EndpointRoundTrip(e: Endpoint)
    ensures ParseAddress(e.String()) == Some(e)
  {
    var s := e.String();
    FormatIntHasNoColon(e.Port);
    forall j | |e.Host| < j < |s| ensures s[j] != ':' {
      assert s[j] == s[|e.Host| + 1..][j - |e.Host| - 1];
    }
    LastIndexIs(s, ':', |e.Host|);
    FormatIntRoundTrip(e.Port);
  }

  /** The address has |Host| + 1 characters plus the digits of the port and its sign. */
  lemma EndpointStringLength(e: Endpoint)
    ensures |e.String()| == |e.Host| + 1 + (if e.Port < 0 then 1 + NumDigits(-e.Port) else NumDigits(e.Port))
  {
    var f := FormatInt(e.Port);
    assert e.String() == e.Host + ":" + f;
    assert |e.String()| == |e.Host| + 1 + |f|;
    FormatIntLength(e.Port);
  }

  /** `userhost`: the "user@host" destination given to the ssh client. */
  function Userhost(t: SshTunnel): (s: string)
    ensures |s| == |t.Config.User| + 1 + |t.Server.Host|
    ensures s[..|t.Config.User|] == t.Config.User && s[|t.Config.User|] == '@'
    ensures s[|t.Config.User| + 1..] == t.Server.Host
  {
    t.Config.User + "@" + t.Server.Host
  }

  /** Splits a destination at its last '@' into user and host. */
  function SplitUserhost(s: string): (r: Option<(string, string)>)
    ensures r.Some? ==> |r.value.0| + 1 + |r.value.1| == |s|
  {
    match LastIndexOf(s, '@')
    case None => None
    case Some(i) => Some((s[..i], s[i + 1..]))
  }

  /** When the server host has no '@', the destination splits back into the user and the host. */
  lemma UserhostRoundTrip(t: SshTunnel)
    requires forall j :: 0 <= j < |t.Server.Host| ==> t.Server.Host[j] != '@'
    ensures SplitUserhost(Userhost(t)) == Some((t.Config.User, t.Server.Host))
  {
    var s := Userhost(t);
    var u := |t.Config.User|;
    forall j | u < j < |s| ensures s[j] != '@' {
      assert s[j] == s[u + 1..][j - u - 1];
    }
    LastIndexIs(s, '@', u);
  }

  /**
   * `route`: the "-L" spec "local:host:remote", written with `string(port)`,
   * so that each port becomes ONE code point (U+FFFD when it is not a Unicode
   * scalar value), not its decimal digits.
   */
  function Route(t: SshTunnel): (r: string)
    ensures |r| == |t.Remote.Host| + 4
    ensures r[0] == RuneOf(t.Local.Port) && r[1] == ':'
    ensures r[2..|r| - 2] == t.Remote.Host
    ensures r[|r| - 2] == ':' && r[|r| - 1] == RuneOf(t.Remote.Port)
  {
    [RuneOf(t.Local.Port)] + ":" + t.Remote.Host + ":" + [RuneOf(t.Remote.Port)]
  }

  /** Reads a route back: the code points of the two ports and the host between them. */
  function ParseRoute(r: string): (p: Option<(int, string, int)>)
    ensures p.Some? ==> |p.value.1| + 4 == |r|
  {
    if |r| >= 4 && r[1] == ':' && r[|r| - 2] == ':' then
      Some((r[0] as int, r[2..|r| - 2], r[|r| - 1] as int))
    else None
  }

  /** The ports survive the route only as code points: exactly when each is a scalar value. */
  lemma RouteRoundTrip(t: SshTunnel)
    ensures ParseRoute(Route(t)).Some?
    ensures ParseRoute(Route(t)).value.1 == t.Remote.Host
    ensures ParseRoute(Route(t)).value.0 == (if IsScalarValue(t.Local.Port) then t.Local.Port else 0xFFFD)
    ensures ParseRoute(Route(t)).value.2 == (if IsScalarValue(t.Remote.Port) then t.Remote.Port else 0xFFFD)
  {
  }

  /** Port 80 is written as "P" and the surrogate 0xD800 as U+FFFD. */
  lemma RouteExample()
    ensures Route(SshTunnel(Endpoint("", 80), Endpoint("gw", 22), Endpoint("db", 0xD800), ClientConfig("u"), ""))
            == "P:db:\U{FFFD}"
  {
  }

  /** The route the ssh client expects: both ports in decimal. */
  function DecimalRoute(t: SshTunnel): (r: string)
    ensures |r| == |FormatInt(t.Local.Port)| + |t.Remote.Host| + |FormatInt(t.Remote.Port)| + 2
  {
    FormatInt(t.Local.Port) + ":" + t.Remote.Host + ":" + FormatInt(t.Remote.Port)
  }

  /** Splits a decimal route at its first and last ':' and reads both ports. */
  function ParseDecimalRoute(r: string): (p: Option<(int, string, int)>)
  {
    var first, last := FirstIndexOf(r, ':'), LastIndexOf(r, ':');
    if first.None? || last.None? || first.value >= last.value then None
    else
      var local, remote := ParseInt(r[..first.value]), ParseInt(r[last.value + 1..]);
      if local.None? || remote.None? then None
      else Some((local.value, r[first.value + 1..last.value], remote.value))
  }

  /** The decimal route gives back both ports and the host, whatever the ports and even when the host holds ':'. */
  lemma DecimalRouteRoundTrip(t: SshTunnel)
    ensures ParseDecimalRoute(DecimalRoute(t)) == Some((t.Local.Port, t.Remote.Host, t.Remote.Port))
  {
    var l, h, m := FormatInt(t.Local.Port), t.Remote.Host, FormatInt(t.Remote.Port);
    assert DecimalRoute(t) == l + ":" + h + ":" + m;
    FormatIntHasNoColon(t.Local.Port);
    FormatIntHasNoColon(t.Remote.Port);
    FormatIntRoundTrip(t.Local.Port);
    FormatIntRoundTrip(t.Remote.Port);
    ParseThreeParts(l, h, m);
  }

  /** A route assembled from two colon-free port texts parses back into its three parts. */
  lemma ParseThreeParts(l: string, h: string, m: string)
    requires forall k :: 0 <= k < |l| ==> l[k] != ':'
    requires forall k :: 0 <= k < |m| ==> m[k] != ':'
    requires ParseInt(l).Some? && ParseInt(m).Some?
    ensures ParseDecimalRoute(l + ":" + h + ":" + m) == Some((ParseInt(l).value, h, ParseInt(m).value))
  {
    ColonsAround(l, h, m);
    ThreeParts(l, h, m);
  }

  /** The three parts of l + ":" + h + ":" + m, recovered by slicing. */
  lemma ThreeParts(l: string, h: string, m: string)
    ensures (l + ":" + h + ":" + m)[..|l|] == l
    ensures (l + ":" + h + ":" + m)[|l| + 1..|l| + 1 + |h|] == h
    ensures (l + ":" + h + ":" + m)[|l| + 1 + |h| + 1..] == m
  {
    var r, i, j := l + ":" + h + ":" + m, |l|, |l| + 1 + |h|;
    assert r[..j] == l + ":" + h;
    assert r[i + 1..j] == r[..j][i + 1..];
  }

  /** In l + ":" + h + ":" + m with no ':' in l or m, the first ':' ends l and the last one starts m. */
  lemma ColonsAround(l: string, h: string, m: string)
    requires forall k :: 0 <= k < |l| ==> l[k] != ':'
    requires forall k :: 0 <= k < |m| ==> m[k] != ':'
    ensures FirstIndexOf(l + ":" + h + ":" + m, ':') == Some(|l|)
    ensures LastIndexOf(l + ":" + h + ":" + m, ':') == Some(|l| + 1 + |h|)
  {
    var r := l + ":" + h + ":" + m;
    var i, j := |l|, |l| + 1 + |h|;
    assert r[i] == ':' && r[j] == ':';
    forall k | 0 <= k < i ensures r[k] != ':' {
      assert r[k] == l[k];
    }
    forall k | j < k < |r| ensures r[k] != ':' {
      assert r[k] == m[k - j - 1];
    }
    FirstIndexIs(r, ':', i);
    LastIndexIs(r, ':', j);
  }

  /** `route` never produces the decimal route, for any ports: a one-digit port becomes a control character. */
  lemma RouteIsNeverDecimal(t: SshTunnel)
    ensures Route(t) != DecimalRoute(t)
  {
    var l := FormatInt(t.Local.Port);
    FormatIntLength(t.Local.Port);
    if 0 <= t.Local.Port < 10 {
      assert l == [DigitChar(t.Local.Port)];
      assert Route(t)[0] != DecimalRoute(t)[0];
    } else if t.Local.Port >= 10 {
      NumDigitsAtLeastTwo(t.Local.Port);
    } else {
      assert |l| >= 2;
    }
  }

  lemma NumDigitsAtLeastTwo(n: nat)
    requires n >= 10
    ensures NumDigits(n) >= 2
  {
  }

  /** `StartCli`'s write of the control socket name (a fresh UUID, given here as `ident`). */
  function AssignSocket(t: SshTunnel, ident: string): (t': SshTunnel)
    ensures t'.socket == ident
    ensures t'.Local == t.Local && t'.Server == t.Server && t'.Remote == t.Remote && t'.Config == t.Config
  {
    t.(socket := ident)
  }

  /**
   * `StopCli`: with no recorded socket it fails at once, without building or
   * running a command; otherwise its result is that of running the
   * "ssh -O exit" command, whose outcome `command` stands for.
   */
  function StopCli(t: SshTunnel, command: Outcome): (r: Outcome)
    ensures t.socket == "" ==> r == Fail(NoSocketMessage)
    ensures t.socket != "" ==> r == command
  {
    if t.socket == "" then Fail(NoSocketMessage) else command
  }

  /** Once `StartCli` has recorded a (non-empty) socket name, `StopCli` gets past its guard. */
  lemma StopCliAfterStartCli(t: SshTunnel, ident: string, command: Outcome)
    requires ident != ""
    ensures StopCli(AssignSocket(t, ident), command) == command
  {
  }
}
