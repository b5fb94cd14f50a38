/** The enumeration of websocket and HTTP protocols with their default ports. */
module DefaultPorts {
  import opened Wrappers
  import opened JavaTypes
  import opened Text

  /** One constant of the enumeration. */
  datatype DefaultPort = WS | WSS | HTTP | HTTPS

  /** The constants in declaration order, as `DefaultPort.values()` lists them. */
  function Values(): seq<DefaultPort>
  {
    [WS, WSS, HTTP, HTTPS]
  }

  /** The constant's name, as `name()` gives it. */
  function Name(p: DefaultPort): string
  {
    match p
    case WS => "WS"
    case WSS => "WSS"
    case HTTP => "HTTP"
    case HTTPS => "HTTPS"
  }

  /** The port each constant carries: 443 for the secure protocols, 80 for the others. */
  function Port(p: DefaultPort): (r: Int32)
    ensures r == 443 <==> p == WSS || p == HTTPS
    ensures r == 80 <==> p == WS || p == HTTP
  {
    match p
    case WS => 80
    case WSS => 443
    case HTTP => 80
    case HTTPS => 443
  }

  /** The opening of the message thrown for an unsupported protocol. */
  const NotSupported := " is not supported. Supported protocols: "

  /** The names of `ps`, each followed by one space, in order. */
  function NameList(ps: seq<DefaultPort>): string
  {
    if ps == [] then "" else NameList(ps[..|ps| - 1]) + (Name(ps[|ps| - 1]) + " ")
  }

  /** The message thrown when `protocol` names no constant. */
  function UnsupportedMessage(protocol: string): string
  {
    protocol + NotSupported + NameList(Values())
  }

  /**
   * Reference definition of `fromProtocol`: the constant whose name equals the
   * upper-cased protocol, or the exception listing every supported name.
   */
  function Lookup(protocol: string): Result<DefaultPort, Exception>
  {
    var u := ToUpper(protocol);
    if u == "WS" then Success(WS)
    else if u == "WSS" then Success(WSS)
    else if u == "HTTP" then Success(HTTP)
    else if u == "HTTPS" then Success(HTTPS)
    else Failure(IllegalArgumentException(UnsupportedMessage(protocol)))
  }

  /**
   * `DefaultPort.fromProtocol`: walks the constants in order, extending the
   * error message with each name, and returns the first constant whose name
   * equals the upper-cased protocol; throws when none does.
   */
  method FromProtocol(protocol: string) returns (r: Result<DefaultPort, Exception>)
    ensures r == Lookup(protocol)
    ensures r.Success? ==> Name(r.value) == ToUpper(protocol)
  {
    var values := Values();
    var msg := protocol + NotSupported;
    for i := 0 to |values|
      invariant msg == protocol + NotSupported + NameList(values[..i])
      invariant forall j :: 0 <= j < i ==> Name(values[j]) != ToUpper(protocol)
    {
      var p := values[i];
      assert values[..i + 1][..i] == values[..i];
      msg := msg + Name(p) + " ";
      if Name(p) == ToUpper(protocol) {
        return Success(p);
      }
    }
    assert values[..|values|] == values;
    assert Name(values[0]) != ToUpper(protocol) && Name(values[1]) != ToUpper(protocol);
    assert Name(values[2]) != ToUpper(protocol) && Name(values[3]) != ToUpper(protocol);
    return Failure(IllegalArgumentException(msg));
  }

  /**
   * The lookup finds a constant exactly when the protocol equals one of the
   * names ignoring letter case, and then it finds that one.
   */
  lemma LookupFinds(protocol: string, p: DefaultPort)
    ensures Lookup(protocol) == Success(p) <==> EqualIgnoringCase(protocol, Name(p))
  {
    EqualIgnoringCaseIffSameUpper(protocol, Name(p));
  }

  /**
   * Whatever the letter case of the input, "ws" and "http" resolve to port 80
   * and "wss" and "https" to port 443.
   */
  lemma DefaultPortsIgnoreCase(protocol: string)
    ensures EqualIgnoringCase(protocol, "ws") ==> Lookup(protocol).Success? && Port(Lookup(protocol).value) == 80
    ensures EqualIgnoringCase(protocol, "http") ==> Lookup(protocol).Success? && Port(Lookup(protocol).value) == 80
    ensures EqualIgnoringCase(protocol, "wss") ==> Lookup(protocol).Success? && Port(Lookup(protocol).value) == 443
    ensures EqualIgnoringCase(protocol, "https") ==> Lookup(protocol).Success? && Port(Lookup(protocol).value) == 443
  {
  }

  /** The name list of `ps` contains the name of each constant in `ps`. */
  lemma {:induction false} NameListContains(ps: seq<DefaultPort>, i: int)
    requires 0 <= i < |ps|
    ensures Contains(NameList(ps), Name(ps[i]))
  {
    var init, last := ps[..|ps| - 1], Name(ps[|ps| - 1]) + " ";
    assert NameList(ps) == NameList(init) + last;
    if i == |ps| - 1 {
      assert OccursAt(last, Name(ps[i]), 0);
      OccursAfter(NameList(init), last, Name(ps[i]), 0);
    } else {
      assert init[i] == ps[i];
      NameListContains(init, i);
      var j :| OccursAt(NameList(init), Name(ps[i]), j);
      OccursBefore(NameList(init), last, Name(ps[i]), j);
    }
  }

  /** The message thrown for an unsupported protocol names every supported protocol. */
  lemma UnsupportedMessageNamesAll(protocol: string)
    ensures forall p :: Contains(UnsupportedMessage(protocol), Name(p))
  {
    forall p ensures Contains(UnsupportedMessage(protocol), Name(p)) {
      var i := match p case WS => 0 case WSS => 1 case HTTP => 2 case HTTPS => 3;
      assert Values()[i] == p;
      NameListContains(Values(), i);
      var j :| OccursAt(NameList(Values()), Name(p), j);
      OccursAfter(protocol + NotSupported, NameList(Values()), Name(p), j);
    }
  }

  /**
   * The lookup fails exactly when the protocol matches no name ignoring case,
   * and the exception it throws then names every supported protocol.
   */
  lemma UnsupportedProtocolFails(protocol: string)
    ensures Lookup(protocol).Failure? <==> forall p :: !EqualIgnoringCase(protocol, Name(p))
    ensures Lookup(protocol).Failure? ==>
      forall p :: Contains(Lookup(protocol).error.message, Name(p))
  {
    forall p ensures Lookup(protocol) == Success(p) <==> EqualIgnoringCase(protocol, Name(p)) {
      LookupFinds(protocol, p);
    }
    UnsupportedMessageNamesAll(protocol);
  }
}
