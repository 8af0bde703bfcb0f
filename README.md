# sshkit in Dafny

A model of the deterministic core of `sshkit`, a small Go helper library
around SSH and SFTP:

- **Tunnel** (`tunnel.go`): the strings the tunnel builds. These are the
  "host:port" address of an `Endpoint`, the "user@host" destination, and
  the "-L" forwarding spec `route` that the `ssh` command line gets. The
  module also covers the guard that makes `StopCli` fail when no control
  socket was recorded.
- **FileIO** (`fileio.go`): the block of permission constants `OsRead` …
  `OsAllRwx`.
- **Sftp** (`sftp.go`): the helpers that read an SFTP file stat.
  `HasOsAttrib` tests permission bits. `GetUID` and `GetGID` return the
  owner and the group. `Exists` decides from a glob result whether a path
  exists.
- **Text**: Go's two conversions from `int` to text. `fmt.Sprintf("%d", n)`
  gives decimal digits. The conversion `string(n)` gives one code point,
  or U+FFFD when `n` is not a Unicode scalar value. The module also holds
  the parsers and character searches that serve as reference readings.
- **Wrappers**: `Option`, `Result` (a value or an error message) and
  `Outcome` (nil or an error).

Ports are not validated: the code takes any Go `int`, so the model does
the same.

## Model

| member | source | states |
|---|---|---|
| Text.Digits | tunnel.go:35 | `%d` of a non-negative number: at least one character, all decimal digits, and no leading zero unless the number is 0 |
| Text.FormatInt | tunnel.go:35 | `%d` of any int: non-empty; it starts with '-' exactly when the number is negative; digits follow |
| Text.FormatIntRoundTrip | tunnel.go:35 | reading the `%d` text back gives the same integer, for every int |
| Text.FormatIntLength | tunnel.go:35 | `%d` has NumDigits(\|n\|) characters, plus one for the '-' of a negative n |
| Text.NumDigitsBounds | tunnel.go:35 | NumDigits(n) is the number of decimal places: 10^(k-1) <= n < 10^k |
| Text.RuneOf | tunnel.go:171-173 | `string(port)` is the code point `port` when that is a scalar value, otherwise U+FFFD |
| Text.RuneOfChar | tunnel.go:171-173 | every character comes from its own code point |
| Text.RuneOfCollapses | tunnel.go:171-173 | all non-scalar ports, and 0xFFFD itself, give the same U+FFFD, so the conversion loses the port |
| Tunnel.Endpoint.String | tunnel.go:34-36 | the address is Host, then ':', then the `%d` text of Port |
| Tunnel.EndpointRoundTrip | tunnel.go:34-36 | splitting the address at its last ':' gives back Host and Port, for every port and for hosts that hold ':' |
| Tunnel.EndpointStringLength | tunnel.go:34-36 | the address has \|Host\| + 1 characters plus the digits of Port and its sign |
| Tunnel.Userhost | tunnel.go:163-165 | the destination is Config.User, then '@', then Server.Host |
| Tunnel.UserhostRoundTrip | tunnel.go:163-165 | when the host has no '@', splitting at the last '@' gives back user and host |
| Tunnel.Route | tunnel.go:168-175 | the route has \|Remote.Host\| + 4 code points: one code point for Local.Port, ':', the host, ':', one code point for Remote.Port |
| Tunnel.RouteRoundTrip | tunnel.go:168-175 | the host comes back intact, and each port comes back only as its code point: itself when it is a scalar value, else 0xFFFD |
| Tunnel.RouteExample | tunnel.go:171-173 | local port 80 and remote port 0xD800 give "P:db:" followed by U+FFFD |
| Tunnel.RouteIsNeverDecimal | tunnel.go:168-175 | for no ports and no host does `route` produce the decimal "local:host:remote" |
| Tunnel.DecimalRoute | tunnel.go:168-175 | the corrected route: its length is the decimal lengths of both ports, plus the host, plus 2 |
| Tunnel.DecimalRouteRoundTrip | tunnel.go:168-175 | the corrected route gives back both ports and the host, for every port and for hosts that hold ':' |
| Tunnel.AssignSocket | tunnel.go:71 | `StartCli` sets the socket to the fresh identifier and leaves the endpoints and the configuration alone |
| Tunnel.StopCli | tunnel.go:103-107 | with an empty socket it fails with "No socket identifier available" and runs no command; otherwise its result is the command's |
| Tunnel.StopCliAfterStartCli | tunnel.go:71-107 | after `StartCli` records a non-empty identifier, `StopCli` gets past the guard |
| FileIO.SingleBitValues | fileio.go:21-44 | user 0400/0200/0100, group 040/020/010, other 04/02/01 |
| FileIO.SingleBitsPartitionMode | fileio.go:28-44 | the nine single permissions are powers of two with no bit in common, and together they make 0777 |
| FileIO.ClassMasks | fileio.go:31-44 | Rw is 06 and Rwx is 07 in each class, so 0700, 070 and 07; the three Rwx masks are disjoint and cover 0777 |
| FileIO.AllClassMasks | fileio.go:46-49 | OsAllR 0444, OsAllW 0222, OsAllX 0111, OsAllRw 0666 |
| FileIO.AllRwxMissesExecute | fileio.go:50 | OsAllRwx as written is 0676, not 0777: it lacks user execute and other execute, and has group execute |
| FileIO.AllRwxIntended | fileio.go:46-50 | the intended OsAllRw \| OsAllX is 0777: it contains every single bit and equals the union of the three Rwx masks |
| FileIO.ConstantsWithinPermissionBits | fileio.go:20-51 | every constant of the block lies in 0 .. 0777 |
| Sftp.HasOsAttrib | sftp.go:104-107 | the test is `Mode & permission != 0`, and it holds exactly when some bit position is set both in Mode and in the permission |
| Sftp.HasOsAttribIsAnyBit | sftp.go:106 | it is an any-bit test: a mode with only user read passes for OsUserRw but fails for OsUserW |
| Sftp.HasOsAttribNothing | sftp.go:106 | permission 0 is never held |
| Sftp.HasOsAttribUnion | sftp.go:106 | testing p \| q is testing p or testing q |
| Sftp.HasOsAttribSingleBit | sftp.go:106 | for each of the nine single bits, the test reads exactly that bit of Mode |
| Sftp.AllRwxMissesUserExecutable | sftp.go:106 | a mode of 0100 fails the test against OsAllRwx as written and passes it against the intended 0777 |
| Sftp.GetUID | sftp.go:110-113 | the owner is the stat's UID field unchanged |
| Sftp.GetGID | sftp.go:116-119 | the group is the stat's GID field unchanged |
| Sftp.AttributesIndependent | sftp.go:104-119 | the permission test does not depend on owner or group, and owner and group do not depend on the mode |
| Sftp.Exists | sftp.go:81-90 | a failed glob gives false and its error unchanged; otherwise true, with no error, exactly when the glob found `path` and nothing else |
| Sftp.ExistsRejects | sftp.go:86-89 | no match, several matches, or one other path all give (false, nil) |

## Left out

- `SSHTunnel.Start` and `forward`: they listen, accept, dial and copy bytes between connections in goroutines. This is network I/O and concurrency.
- `StartCli` and `StopCli` beyond the guard: they start the `ssh` process and wait for it. The UUID that `StartCli` makes is the `ident` parameter of `AssignSocket`. The outcome of the `ssh -O exit` command is the `command` parameter of `StopCli`. A failing UUID generator, which panics, is not modelled.
- The argument vectors built at tunnel.go:75-86 and tunnel.go:111-121 are not modelled. They also pass `-p string(tunnel.Server.Port)`, the same one-code-point conversion as the route.
- `SSHConfig`, `SSHClient`, `LocalAgent`, `AgentAuth`, `SFTPClient`, `Push`, `Pull` and `IsReadable` are left out. They are wrappers over the SSH and SFTP libraries, the SSH agent and the local file system.
- sshkit.go repeats the tunnel and SFTP helpers. It is not part of this model, because each helper is modelled once from its own file.
- `HasOsAttrib`, `GetUID` and `GetGID` get the stat through reflection on `info.Sys()`. The model takes the `FileStat` record directly. A `FileInfo` whose `Sys()` is not an SFTP stat makes Go panic; that case is not modelled.
- `Exists`: glob pattern matching belongs to the SFTP library. The glob's answer is an input.
- Nil `Local`, `Server`, `Remote` or `Config` pointers make Go panic. The model holds plain values.
- Go strings are byte sequences. The model uses sequences of code points, so lengths count code points, and hosts or users with invalid UTF-8 are not modelled.
- Ports are Go `int`, 32 or 64 bits wide depending on the platform. The model uses unbounded integers. `%d` and `string(int)` behave the same on every value of either width.

## Findings

| source | as written | input that shows it | evidently intended | confidence | as-written member | corrected member |
|---|---|---|---|---|---|---|
| tunnel.go:171-173 | `string(tunnel.Local.Port)` and `string(tunnel.Remote.Port)` turn each port into one code point | local port 80 and remote port 0xD800 give "P:db:" and U+FFFD, not "80:db:55296" | the ports in decimal, `local:host:remote` | high; not executed | Tunnel.Route, Tunnel.RouteIsNeverDecimal | Tunnel.DecimalRoute, Tunnel.DecimalRouteRoundTrip |
| fileio.go:50 | `OsAllRwx = OsAllRw \| OsGroupX`, which is 0676 | a mode of 0100 (owner may execute) fails `HasOsAttrib(_, OsAllRwx)` | `OsAllRw \| OsAllX`, which is 0777 | high; not executed | FileIO.AllRwxMissesExecute, Sftp.AllRwxMissesUserExecutable | FileIO.AllRwxIntended |
