/**
 * The two objects a login configuration embeds: the user's credentials and
 * the server address. Their own implementations are not part of this model;
 * only the fields and calls the configuration uses are kept.
 */
module Collaborators {
  import opened Wrappers
  import opened JavaTypes

  /** A user name (or session ID) and a password, each absent until set. */
  class UserCredentials {
    var username: Option<string>
    var password: Option<string>

    constructor ()
      ensures username == None && password == None
    {
      username := None;
      password := None;
    }

    method SetUsername(username: string)
      modifies this
      ensures this.username == Some(username) && password == old(password)
    {
      this.username := Some(username);
    }

    method SetPassword(password: string)
      modifies this
      ensures this.password == Some(password) && username == old(username)
    {
      this.password := Some(password);
    }
  }

  /**
   * What the server-address component makes of a host string: the host name,
   * the port the string carries (negative when it carries none), whether the
   * string is a URL, and the URL's protocol.
   */
  datatype ParsedHost = ParsedHost(host: string, port: Int32, isURL: bool, protocol: string)

  /** The server address: a parsed host whose port can be overwritten. */
  class ServerInformation {
    var host: string
    var port: Int32
    var isURL: bool
    var protocol: string

    /** The address as one value. */
    function Address(): ParsedHost
      reads this
    {
      ParsedHost(host, port, isURL, protocol)
    }

    constructor ()
      ensures Address() == ParsedHost("", -1, false, "")
    {
      host, port, isURL, protocol := "", -1, false, "";
    }

    /** Replaces the address by whatever `parse` makes of `host`. */
    method SetHost(host: string, parse: string -> ParsedHost)
      modifies this
      ensures Address() == parse(host)
    {
      var a := parse(host);
      this.host, port, isURL, protocol := a.host, a.port, a.isURL, a.protocol;
    }

    /** Overwrites the port and leaves the rest of the address as it was. */
    method SetPort(port: Int32)
      modifies this
      ensures Address() == old(Address()).(port := port)
    {
      this.port := port;
    }

    function GetPort(): Int32
      reads this
    {
      port
    }

    function IsURL(): bool
      reads this
    {
      isURL
    }

    function GetProtocol(): string
      reads this
    {
      protocol
    }
  }
}
