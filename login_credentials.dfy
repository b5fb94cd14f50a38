/**
 * The parameters of one connection attempt to an OMERO server: who logs in,
 * where, and with which connection options.
 */
module Gateway {
  import opened Wrappers
  import opened JavaTypes
  import opened Text
  import opened DefaultPorts
  import opened Collaborators

  /** The fixed Glacier2 router port a plain host name defaults to. */
  const Glacier2Port: Int32 := 4064

  /** The default compression level, the `float` 0.85. */
  const DefaultCompression := Float32(0x3F59_999A)

  /** The message thrown when the argument vector is null. */
  const NoArguments := "No connection arguments"

  /** The options a configuration carries besides its user and server objects. */
  datatype Settings = Settings(
    applicationName: Option<string>,
    encryption: bool,
    checkNetwork: bool,
    compression: Float32,
    groupID: Int64,
    args: Option<seq<string>>,
    checkVersion: bool)

  /**
   * The field defaults: encryption, network and version checks on,
   * compression 0.85, the user's default group (-1), no arguments and no
   * application name.
   */
  function DefaultSettings(): Settings
  {
    Settings(None, true, true, DefaultCompression, -1, None, true)
  }

  /**
   * The port the four-argument constructor settles on for an explicit `port`
   * and the address the host string parses to, or the exception it throws.
   */
  function ResolvedPort(port: Int32, parsed: ParsedHost): Result<Int32, Exception>
  {
    if port >= 0 then Success(port)
    else if parsed.port >= 0 then Success(parsed.port)
    else if !parsed.isURL then Success(Glacier2Port)
    else match Lookup(parsed.protocol)
      case Success(p) => Success(Port(p))
      case Failure(e) => Failure(e)
  }

  class LoginCredentials {
    const user: UserCredentials
    const server: ServerInformation
    var applicationName: Option<string>
    var encryption: bool
    var checkNetwork: bool
    var compression: Float32
    var groupID: Int64
    var args: Option<seq<string>>
    var checkVersion: bool

    /** The current options as one value. */
    function Current(): Settings
      reads this
    {
      Settings(applicationName, encryption, checkNetwork, compression, groupID, args, checkVersion)
    }

    /**
     * The state a successful credentials constructor leaves: default options,
     * the user name and password stored verbatim, and the parsed address with
     * the resolved port.
     */
    ghost predicate HoldsLogin(username: string, password: string, parsed: ParsedHost, port: Int32)
      reads this, user, server
    {
      && Current() == DefaultSettings()
      && user.username == Some(username)
      && user.password == Some(password)
      && server.Address() == parsed.(port := port)
    }

    /** A configuration with default options, empty credentials and an empty address. */
    constructor ()
      ensures Current() == DefaultSettings()
      ensures GetArguments() == None
      ensures fresh(user) && fresh(server)
      ensures user.username == None && user.password == None
      ensures server.Address() == ParsedHost("", -1, false, "")
    {
      user := new UserCredentials();
      server := new ServerInformation();
      applicationName := None;
      encryption := true;
      checkNetwork := true;
      compression := DefaultCompression;
      groupID := -1;
      args := None;
      checkVersion := true;
    }

    /**
     * The constructor taking a raw argument vector: throws when the vector is
     * null, and otherwise keeps a copy of its contents.
     */
    static method FromArguments(args: array?<string>) returns (r: Result<LoginCredentials, Exception>)
      ensures r.Failure? <==> args == null
      ensures r.Failure? ==> r.error == IllegalArgumentException(NoArguments)
      ensures r.Success? ==> fresh(r.value) && fresh(r.value.user) && fresh(r.value.server)
      ensures r.Success? ==> r.value.Current() == DefaultSettings().(args := Some(args[..]))
      ensures r.Success? ==> r.value.GetArguments() == Some(args[..])
      ensures r.Success? ==> r.value.user.username == None && r.value.user.password == None
      ensures r.Success? ==> r.value.server.Address() == ParsedHost("", -1, false, "")
    {
      var c := new LoginCredentials();
      if args == null {
        return Failure(IllegalArgumentException(NoArguments));
      }
      c.args := Some(args[..]);
      return Success(c);
    }

    /** The constructor taking credentials and a host: the same as giving port -1. */
    static method ForHost(username: string, password: string, host: string, parse: string -> ParsedHost)
      returns (r: Result<LoginCredentials, Exception>)
      ensures r.Failure? <==> ResolvedPort(-1, parse(host)).Failure?
      ensures r.Failure? ==> r.error == ResolvedPort(-1, parse(host)).error
      ensures r.Success? ==> fresh(r.value) && fresh(r.value.user) && fresh(r.value.server)
      ensures r.Success? ==>
        r.value.HoldsLogin(username, password, parse(host), ResolvedPort(-1, parse(host)).value)
    {
      r := ForHostAndPort(username, password, host, -1, parse);
    }

    /**
     * The constructor taking credentials, a host and a port. The host is
     * parsed into the server address; then the port is the explicit one if it
     * is non-negative, else the one the host carried, else the Glacier2 port
     * for a plain host name, else the default port of the URL's protocol.
     */
    static method ForHostAndPort(username: string, password: string, host: string, port: Int32,
                                 parse: string -> ParsedHost)
      returns (r: Result<LoginCredentials, Exception>)
      ensures r.Failure? <==> ResolvedPort(port, parse(host)).Failure?
      ensures r.Failure? ==> r.error == ResolvedPort(port, parse(host)).error
      ensures r.Success? ==> fresh(r.value) && fresh(r.value.user) && fresh(r.value.server)
      ensures r.Success? ==>
        r.value.HoldsLogin(username, password, parse(host), ResolvedPort(port, parse(host)).value)
    {
      var c := new LoginCredentials();
      c.user.SetUsername(username);
      c.user.SetPassword(password);
      c.server.SetHost(host, parse);
      if port >= 0 {
        c.server.SetPort(port);
      } else if c.server.GetPort() < 0 {
        if !c.server.IsURL() {
          c.server.SetPort(Glacier2Port);
        } else if c.server.GetPort() < 0 {
          var d := FromProtocol(c.server.GetProtocol());
          if d.Failure? {
            return Failure(d.error);
          }
          c.server.SetPort(Port(d.value));
        }
      }
      return Success(c);
    }

    /** The stored argument vector, if there is one: a read-only copy. */
    function GetArguments(): Option<seq<string>>
      reads this
    {
      args
    }

    function IsEncryption(): bool
      reads this
    {
      encryption
    }

    method SetEncryption(encryption: bool)
      modifies this
      ensures IsEncryption() == encryption
      ensures Current() == old(Current()).(encryption := encryption)
    {
      this.encryption := encryption;
    }

    function IsCheckNetwork(): bool
      reads this
    {
      checkNetwork
    }

    method SetCheckNetwork(checkNetwork: bool)
      modifies this
      ensures IsCheckNetwork() == checkNetwork
      ensures Current() == old(Current()).(checkNetwork := checkNetwork)
    {
      this.checkNetwork := checkNetwork;
    }

    function GetCompression(): Float32
      reads this
    {
      compression
    }

    method SetCompression(compression: Float32)
      modifies this
      ensures GetCompression() == compression
      ensures Current() == old(Current()).(compression := compression)
    {
      this.compression := compression;
    }

    function GetApplicationName(): Option<string>
      reads this
    {
      applicationName
    }

    method SetApplicationName(applicationName: Option<string>)
      modifies this
      ensures GetApplicationName() == applicationName
      ensures Current() == old(Current()).(applicationName := applicationName)
    {
      this.applicationName := applicationName;
    }

    /** The embedded credentials object itself, not a copy. */
    function GetUser(): UserCredentials
      reads this
    {
      user
    }

    /** The embedded server-address object itself, not a copy. */
    function GetServer(): ServerInformation
      reads this
    {
      server
    }

    function GetGroupID(): Int64
      reads this
    {
      groupID
    }

    method SetGroupID(groupID: Int64)
      modifies this
      ensures GetGroupID() == groupID
      ensures Current() == old(Current()).(groupID := groupID)
    {
      this.groupID := groupID;
    }

    function GetCheckVersion(): bool
      reads this
    {
      checkVersion
    }

    method SetCheckVersion(checkVersion: bool)
      modifies this
      ensures GetCheckVersion() == checkVersion
      ensures Current() == old(Current()).(checkVersion := checkVersion)
    {
      this.checkVersion := checkVersion;
    }
  }

  /**
   * A port the caller gives explicitly always wins, whatever the host is, and
   * construction then cannot fail; without one, a port the host string
   * carried is kept; without either, a plain host name gets the Glacier2 port.
   */
  lemma SuppliedPortWins(port: Int32, parsed: ParsedHost)
    ensures port >= 0 ==> ResolvedPort(port, parsed) == Success(port)
    ensures port < 0 && parsed.port >= 0 ==> ResolvedPort(port, parsed) == Success(parsed.port)
    ensures port < 0 && parsed.port < 0 && !parsed.isURL ==> ResolvedPort(port, parsed) == Success(Glacier2Port)
  {
  }

  /**
   * Without any port, a URL host gets its protocol's default port, compared
   * ignoring letter case: 80 for ws and http, 443 for wss and https.
   * Construction fails exactly when the protocol is none of them, and the
   * exception then names every supported protocol.
   */
  lemma UrlHostDefaultPort(port: Int32, parsed: ParsedHost)
    requires port < 0 && parsed.port < 0 && parsed.isURL
    ensures EqualIgnoringCase(parsed.protocol, "ws") || EqualIgnoringCase(parsed.protocol, "http")
      ==> ResolvedPort(port, parsed) == Success(80)
    ensures EqualIgnoringCase(parsed.protocol, "wss") || EqualIgnoringCase(parsed.protocol, "https")
      ==> ResolvedPort(port, parsed) == Success(443)
    ensures ResolvedPort(port, parsed).Failure? <==>
      forall p :: !EqualIgnoringCase(parsed.protocol, Name(p))
    ensures ResolvedPort(port, parsed).Failure? ==>
      forall p :: Contains(ResolvedPort(port, parsed).error.message, Name(p))
  {
    DefaultPortsIgnoreCase(parsed.protocol);
    UnsupportedProtocolFails(parsed.protocol);
  }

  /** A successful resolution always yields a usable, non-negative port. */
  lemma ResolvedPortNonNegative(port: Int32, parsed: ParsedHost)
    ensures ResolvedPort(port, parsed).Success? ==> ResolvedPort(port, parsed).value >= 0
  {
  }

  /** Every negative port means "unspecified": they all resolve alike, as -1 does. */
  lemma NegativePortsAgree(port: Int32, parsed: ParsedHost)
    requires port < 0
    ensures ResolvedPort(port, parsed) == ResolvedPort(-1, parsed)
  {
  }

  /**
   * The configuration keeps its own copy of the argument vector: a caller
   * that overwrites its array afterwards still finds the original contents.
   */
  method ArgumentsOutliveCallerChanges(argv: array<string>, i: nat, x: string)
    returns (stored: Option<seq<string>>)
    requires i < argv.Length
    modifies argv
    ensures argv[i] == x
    ensures stored == Some(old(argv[..]))
  {
    var r := LoginCredentials.FromArguments(argv);
    argv[i] := x;
    stored := r.value.GetArguments();
  }

  /**
   * The argument vector a configuration reports: none for one built without
   * arguments, and the stored copy for one built from a vector.
   */
  method ArgumentsAsBuilt(argv: array<string>) returns (none: Option<seq<string>>, some: Option<seq<string>>)
    ensures none == None
    ensures some == Some(argv[..])
  {
    var c := new LoginCredentials();
    none := c.GetArguments();
    var r := LoginCredentials.FromArguments(argv);
    some := r.value.GetArguments();
  }

  /**
   * `getUser` hands out the embedded credentials themselves: renaming the
   * user through them renames this configuration's user and leaves the
   * password and the options as they were.
   */
  method RenameThroughGetUser(c: LoginCredentials, name: string)
    modifies c.user
    ensures c.user.username == Some(name) && c.user.password == old(c.user.password)
    ensures c.Current() == old(c.Current())
  {
    var u := c.GetUser();
    u.SetUsername(name);
  }

  /**
   * `getServer` hands out the embedded address itself: setting the port
   * through it changes this configuration's port and leaves the rest of the
   * address and the options as they were.
   */
  method RetargetThroughGetServer(c: LoginCredentials, port: Int32)
    modifies c.server
    ensures c.server.Address() == old(c.server.Address()).(port := port)
    ensures c.Current() == old(c.Current())
  {
    var s := c.GetServer();
    s.SetPort(port);
  }
}
