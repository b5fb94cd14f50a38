# LoginCredentials: the connection parameters of the OMERO Java gateway

This project models `omero.gateway.LoginCredentials`. A caller fills in one of these objects to describe one connection to an OMERO server. The object holds:

- the user's credentials and the server address, as two embedded objects;
- the connection options: encryption, network checks, version check, compression level, group and application name;
- an optional raw argument vector.

The object has two pieces of logic:

- the `DefaultPort` enumeration maps the protocols WS, WSS, HTTP and HTTPS to 80 or 443, ignoring letter case (`DefaultPorts.FromProtocol`);
- the four-argument constructor picks the server port in a fixed order (`Gateway.LoginCredentials.ForHostAndPort`).

Modules:

- `Wrappers`: `Option` (a Java reference that may be null) and `Result` (a value, or the exception a call throws).
- `JavaTypes`: `Int32` and `Int64` for Java's `int` and `long`. `Float32` is a `float` kept as its bit pattern. `Exception` is `IllegalArgumentException` with its message.
- `Text`: ASCII upper-casing (`String.toUpperCase`), case-insensitive equality, and substring containment.
- `DefaultPorts`: the enumeration, in declaration order. It has its port table (`Port`), a reference definition of the lookup (`Lookup`), the loop `FromProtocol` proved equal to it, and lemmas about it.
- `Collaborators`: `UserCredentials` and `ServerInformation`, reduced to the fields and calls `LoginCredentials` uses. Host parsing is a parameter `parse: string -> ParsedHost`. So the port resolution is proved for whatever the server-address component makes of the host string.
- `Gateway`: the class `LoginCredentials` and the specification function `ResolvedPort`. Constructors that can throw are static methods returning a `Result`, because a Dafny constructor cannot fail. The no-argument constructor is the class's constructor. `user` and `server` are `const`: the Java class never reassigns them. Setters change only their own field. The getters (`IsEncryption`, `GetCompression`, `GetUser`, `GetServer`, `GetArguments`, …) are functions that read the field.

Notes on the code as written:

- Both failing constructors throw `IllegalArgumentException` (lines 86 and 109). The model keeps one exception kind, told apart by its message.
- The four-argument constructor checks `server.getPort() < 0` a second time before the protocol lookup, although that already holds at that point. The model keeps the repeated check.

## Model

| member | source | states |
|---|---|---|
| `Text.ToUpper` | src/main/java/omero/gateway/LoginCredentials.java:83 | upper-casing keeps the length and upper-cases every character in place |
| `Text.EqualIgnoringCaseIffSameUpper` | src/main/java/omero/gateway/LoginCredentials.java:83 | bridging fact used by `LookupFinds`: the source's test `name().equals(protocol.toUpperCase())` is exactly case-insensitive equality, in both directions |
| `DefaultPorts.Port` | src/main/java/omero/gateway/LoginCredentials.java:67-71 | the port table: the secure protocols WSS and HTTPS carry 443, WS and HTTP carry 80, and no constant carries any other port |
| `DefaultPorts.FromProtocol` | src/main/java/omero/gateway/LoginCredentials.java:79-87 | the loop over the constants, which builds the message and returns early, returns exactly what the reference lookup gives: the constant whose name is the upper-cased input, or the exception with the full message |
| `DefaultPorts.LookupFinds` | src/main/java/omero/gateway/LoginCredentials.java:79-85 | the lookup yields constant `p` if and only if the input equals `p`'s name ignoring case |
| `DefaultPorts.DefaultPortsIgnoreCase` | src/main/java/omero/gateway/LoginCredentials.java:66-85 | in any letter case, "ws" and "http" give port 80, and "wss" and "https" give port 443 |
| `DefaultPorts.NameListContains` | src/main/java/omero/gateway/LoginCredentials.java:81-82 | the names the loop appends to the message, one per constant, include the name of every constant it has passed |
| `DefaultPorts.UnsupportedMessageNamesAll` | src/main/java/omero/gateway/LoginCredentials.java:80-86 | the message thrown for an unsupported protocol contains WS, WSS, HTTP and HTTPS |
| `DefaultPorts.UnsupportedProtocolFails` | src/main/java/omero/gateway/LoginCredentials.java:79-86 | the lookup throws if and only if the input matches no name ignoring case, and its message then names every supported protocol |
| `Collaborators.UserCredentials.constructor` | src/main/java/omero/gateway/LoginCredentials.java:94 | a fresh user has no user name and no password |
| `Collaborators.UserCredentials.SetUsername` | src/main/java/omero/gateway/LoginCredentials.java:145 | stores the user name verbatim and keeps the password |
| `Collaborators.UserCredentials.SetPassword` | src/main/java/omero/gateway/LoginCredentials.java:146 | stores the password verbatim and keeps the user name |
| `Collaborators.ServerInformation.constructor` | src/main/java/omero/gateway/LoginCredentials.java:95 | a fresh address is empty, with no port (-1) and not a URL |
| `Collaborators.ServerInformation.SetHost` | src/main/java/omero/gateway/LoginCredentials.java:147 | the address becomes whatever parsing the host string yields |
| `Collaborators.ServerInformation.SetPort` | src/main/java/omero/gateway/LoginCredentials.java:149 | overwrites the port and keeps host, URL flag and protocol |
| `Gateway.LoginCredentials.constructor` | src/main/java/omero/gateway/LoginCredentials.java:44-97 | defaults: encryption, network check and version check on, compression 0.85f, group -1, no arguments, no application name, fresh empty user and server |
| `Gateway.LoginCredentials.FromArguments` | src/main/java/omero/gateway/LoginCredentials.java:106-112 | throws `IllegalArgumentException("No connection arguments")` if and only if the vector is null; otherwise stores a copy equal to it, with every other field at its default |
| `Gateway.ArgumentsOutliveCallerChanges` | src/main/java/omero/gateway/LoginCredentials.java:106-112 | overwriting the caller's array after construction leaves the stored arguments as they were |
| `Gateway.LoginCredentials.ForHost` | src/main/java/omero/gateway/LoginCredentials.java:125-127 | exactly the four-argument constructor's outcome with port -1 |
| `Gateway.LoginCredentials.ForHostAndPort` | src/main/java/omero/gateway/LoginCredentials.java:142-160 | changing the server step by step succeeds if and only if `ResolvedPort` does, and throws its exception when it fails. On success: default options, user name and password stored verbatim, the parsed address with the resolved port |
| `Gateway.SuppliedPortWins` | src/main/java/omero/gateway/LoginCredentials.java:148-155 | an explicit non-negative port wins and cannot fail; without one, a port from the host is kept; without either, a plain host gets the Glacier2 port |
| `Gateway.UrlHostDefaultPort` | src/main/java/omero/gateway/LoginCredentials.java:153-157 | without any port, a URL host gets 80 for ws/http and 443 for wss/https in any case. Construction fails if and only if the protocol is none of these, and the message then names all four |
| `Gateway.ResolvedPortNonNegative` | src/main/java/omero/gateway/LoginCredentials.java:148-158 | every successful resolution yields a non-negative port |
| `Gateway.NegativePortsAgree` | src/main/java/omero/gateway/LoginCredentials.java:148 | every negative explicit port behaves like -1, the three-argument form's "unspecified" |
| `Gateway.ArgumentsAsBuilt` | src/main/java/omero/gateway/LoginCredentials.java:167 | `getArguments` reports no vector for a configuration built without arguments, and a copy equal to the input for one built from a vector |
| `Gateway.RenameThroughGetUser` | src/main/java/omero/gateway/LoginCredentials.java:242-244 | `getUser` returns the embedded credentials themselves: a user name set through them is this configuration's user name, with the password and options unchanged |
| `Gateway.RetargetThroughGetServer` | src/main/java/omero/gateway/LoginCredentials.java:250-252 | `getServer` returns the embedded address itself: a port set through it is this configuration's port, with the rest of the address and the options unchanged |
| `Gateway.LoginCredentials.SetEncryption` | src/main/java/omero/gateway/LoginCredentials.java:172-184 | the getter returns the value set; every other option is unchanged |
| `Gateway.LoginCredentials.SetCheckNetwork` | src/main/java/omero/gateway/LoginCredentials.java:189-201 | the getter returns the value set; every other option is unchanged |
| `Gateway.LoginCredentials.SetCompression` | src/main/java/omero/gateway/LoginCredentials.java:207-219 | the getter returns the value set; every other option is unchanged |
| `Gateway.LoginCredentials.SetApplicationName` | src/main/java/omero/gateway/LoginCredentials.java:224-236 | the getter returns the value set, null included; every other option is unchanged |
| `Gateway.LoginCredentials.SetGroupID` | src/main/java/omero/gateway/LoginCredentials.java:258-270 | the getter returns the value set; every other option is unchanged |
| `Gateway.LoginCredentials.SetCheckVersion` | src/main/java/omero/gateway/LoginCredentials.java:276-287 | the getter returns the value set; every other option is unchanged |

## Left out

- Host parsing: `ServerInformation.setHost`, `isURL` and `getProtocol` live in a file that is not part of this model. `SetHost` replaces the host, port, URL flag and protocol with what an arbitrary parser function yields for the host string. Whether the real `setHost` keeps an earlier port is not modelled. The parser function is total, so a host string the real parser rejects with an exception is not modelled; `ForHostAndPort` succeeds or fails as `ResolvedPort` does only under that assumption.
- The defaults of a fresh `UserCredentials` (no user name or password) and a fresh `ServerInformation` (empty host, port -1, not a URL) are assumptions: their constructors are not part of this model. No property of the credentials constructors depends on them, because those constructors set the user name and password and parse the host.
- `UserCredentials` is reduced to a user name and a password.
- `Glacier2Port`: `omero.constants.GLACIER2PORT` is defined outside this file. The model uses 4064, and its proofs use only that the value is a non-negative `int`.
- `Text.ToUpper`: upper-cases only the ASCII letters. Java's locale-dependent Unicode mappings are not modelled. For example, U+017F becomes "S", and "ß" becomes "SS", which changes the length.
- `compression` is a `float` stored as its bit pattern (0x3F59999A is 0.85f). It undergoes no arithmetic and no range check, as in the source.
- Null strings: user name, password, host and protocol are modelled as non-null strings. A null protocol makes `toUpperCase` throw, and the source promises nothing about it. Null user names and passwords would be stored verbatim; that case is not modelled.
- Null elements in the argument vector: Guava's `ImmutableList.copyOf` rejects them. The model's arrays hold non-null strings.
- `ImmutableList` is modelled as `seq<string>`, whose contents cannot change once stored.
- The partial message `FromProtocol` has built when it returns early on a match: it is never observed, and the model does not constrain it.
- Connecting, authenticating, encrypting and performing the network or version checks: this object only carries their parameters.
- `getUser` and `getServer` return the embedded objects themselves. The model returns the same references, so a caller that changes them changes this configuration, as in Java.
