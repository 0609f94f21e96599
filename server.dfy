/**
 * Building a server from its configuration: a chain of guards, each
 * refusing the configuration with its own error, then the separators are
 * installed in the escaper and in both validators, and the settings are
 * copied with the host normalised.
 */
module Server {
  import opened Errors
  import opened Numbers
  import Utils
  import Escape
  import RequestRegistry
  import ResponseRegistry

  /** What a caller asks for. */
  datatype Config = Config(
    Host: string,
    Port: int,
    DebugMode: bool,
    LibraryID: string,
    InstitutionID: string,
    TerminalUsername: string,
    TerminalPassword: string,
    TerminatorCharacter: char,
    DelimiterCharacter: char,
    ConnectionTimeout: int)

  /** The settings handed to every handler. */
  datatype Settings = Settings(
    host: string,
    port: int,
    debugMode: bool,
    libraryID: string,
    institutionID: string,
    terminalUsername: string,
    terminalPassword: string,
    terminatorCharacter: char,
    delimiterCharacter: char,
    connectionTimeout: int)

  /**
   * A server as NewServer builds it: the parsed listen address, the checked
   * configuration, its settings and the message types that have a handler.
   */
  datatype Server = Server(
    listenAddr: string,
    debugMode: bool,
    libraryID: string,
    institutionID: string,
    terminalUsername: string,
    terminalPassword: string,
    terminatorCharacter: char,
    delimiterCharacter: char,
    connectionTimeout: int,
    settings: Settings,
    handled: set<int>)

  /** The address parsers of the standard library, given as parameters. */
  type ParseAddr = string -> Option<string>
  type ParseAddrPort = string -> Option<string>

  /**
   * The package state NewServer overwrites: the escaper's pairs and the bad
   * characters of the request and response validators (nil until set).
   */
  class Globals {
    var replacer: Option<seq<Escape.Pair>>
    var requestBad: Option<string>
    var responseBad: Option<string>

    constructor ()
      ensures replacer == None && requestBad == None && responseBad == None
    {
      replacer := None;
      requestBad := None;
      responseBad := None;
    }
  }

  /** The configuration DefaultServerConfig proposes. */
  function DefaultServerConfig(): (c: Config)
    ensures c.Host == "127.0.0.1" && c.Port == 9000 && !c.DebugMode
    ensures c.LibraryID == "lib" && c.InstitutionID == "inst"
    ensures c.TerminalUsername == "" && c.TerminalPassword == ""
    ensures c.TerminatorCharacter == '\r' && c.DelimiterCharacter == '|' && c.ConnectionTimeout == 5
  {
    Config("127.0.0.1", 9000, false, "lib", "inst", "", "", '\r', '|', 5)
  }

  /**
   * The simple lower-case mapping of the runes whose lower case is an ASCII
   * letter: A to Z, the Kelvin sign and capital I with dot above.
   */
  function Lower(c: char): char
  {
    if 'A' <= c <= 'Z' then (c as int + 32) as char
    else if c == '\U{212A}' then 'k'
    else if c == '\U{0130}' then 'i'
    else c
  }

  /** The host lower-cased reads "localhost". */
  predicate IsLocalhost(host: string)
  {
    |host| == 9 && forall i | 0 <= i < 9 :: Lower(host[i]) == "localhost"[i]
  }

  /** The host NewServer parses: "localhost" in any case becomes the IPv4 loopback. */
  function NormalHost(host: string): (h: string)
    ensures IsLocalhost(host) ==> h == "127.0.0.1"
    ensures !IsLocalhost(host) ==> h == host
  {
    if IsLocalhost(host) then "127.0.0.1" else host
  }

  /** The credential a field names. */
  function Value(cfg: Config, f: ConfigField): string
  {
    match f
    case InstitutionIDField => cfg.InstitutionID
    case LibraryIDField => cfg.LibraryID
    case TerminalUsernameField => cfg.TerminalUsername
    case TerminalPasswordField => cfg.TerminalPassword
  }

  /** One credential's guard: the terminator is looked for first, then the delimiter. */
  function Separators(cfg: Config, f: ConfigField): (r: Option<ConfigFault>)
  {
    if cfg.TerminatorCharacter in Value(cfg, f) then Some(TerminatorIn(f))
    else if cfg.DelimiterCharacter in Value(cfg, f) then Some(DelimiterIn(f))
    else None
  }

  /** The text handed to ParseAddrPort: the parsed address, a colon and the port in decimal. */
  function AddrPortText(ip: string, port: int): string
  {
    ip + ":" + Itoa(port)
  }

  /** The server built from a configuration that passed every guard. */
  function Assemble(cfg: Config, host: string, listenAddr: string): Server
  {
    Server(listenAddr, cfg.DebugMode, cfg.LibraryID, cfg.InstitutionID, cfg.TerminalUsername,
      cfg.TerminalPassword, cfg.TerminatorCharacter, cfg.DelimiterCharacter, cfg.ConnectionTimeout,
      Settings(host, cfg.Port, cfg.DebugMode, cfg.LibraryID, cfg.InstitutionID, cfg.TerminalUsername,
        cfg.TerminalPassword, cfg.TerminatorCharacter, cfg.DelimiterCharacter, cfg.ConnectionTimeout),
      {})
  }

  /**
   * NewServer's decision: the guards in the order Go's NewServer runs them; the
   * first that fails is the error, otherwise the server is assembled.
   */
  function Build(cfg: Config, parseAddr: ParseAddr, parseAddrPort: ParseAddrPort): (r: Result<Server>)
    ensures r.Err? ==> r.error.ConfigError?
    ensures cfg.ConnectionTimeout < 1 ==> r == Err(ConfigError(TimeoutNotPositive))
    ensures r.Ok? ==> r.value.settings.host == NormalHost(cfg.Host) && r.value.handled == {}
    ensures r.Ok? ==> r.value.settings.port == cfg.Port && r.value.connectionTimeout == cfg.ConnectionTimeout
    ensures r.Ok? ==> r.value.terminatorCharacter == r.value.settings.terminatorCharacter == cfg.TerminatorCharacter
    ensures r.Ok? ==> r.value.delimiterCharacter == r.value.settings.delimiterCharacter == cfg.DelimiterCharacter
  {
    if cfg.ConnectionTimeout < 1 then Err(ConfigError(TimeoutNotPositive))
    else if cfg.TerminatorCharacter == cfg.DelimiterCharacter then Err(ConfigError(SameTerminatorAndDelimiter))
    else if cfg.Port < 1 || cfg.Port > 65535 then Err(ConfigError(PortOutOfRange))
    else
      var host := NormalHost(cfg.Host);
      match parseAddr(host)
      case None => Err(ConfigError(AddrUnparsable))
      case Some(ip) =>
        match parseAddrPort(AddrPortText(ip, cfg.Port))
        case None => Err(ConfigError(AddrPortUnparsable))
        case Some(listenAddr) =>
          if Separators(cfg, InstitutionIDField).Some? then Err(ConfigError(Separators(cfg, InstitutionIDField).value))
          else if Separators(cfg, LibraryIDField).Some? then Err(ConfigError(Separators(cfg, LibraryIDField).value))
          else if Separators(cfg, TerminalUsernameField).Some? then Err(ConfigError(Separators(cfg, TerminalUsernameField).value))
          else if Separators(cfg, TerminalPasswordField).Some? then Err(ConfigError(Separators(cfg, TerminalPasswordField).value))
          else Ok(Assemble(cfg, host, listenAddr))
  }

  /**
   * NewServer: on success the escaper deletes the delimiter and the
   * terminator and both validators refuse them; on failure nothing changes.
   */
  method NewServer(g: Globals, cfg: Config, parseAddr: ParseAddr, parseAddrPort: ParseAddrPort)
    returns (r: Result<Server>)
    modifies g
    ensures r == Build(cfg, parseAddr, parseAddrPort)
    ensures r.Err? ==> unchanged(g)
    ensures r.Ok? ==> g.replacer == Some(Escape.Pairs([cfg.DelimiterCharacter, cfg.TerminatorCharacter]))
    ensures r.Ok? ==> g.requestBad == g.responseBad == Some([cfg.DelimiterCharacter, cfg.TerminatorCharacter])
  {
    r := Build(cfg, parseAddr, parseAddrPort);
    if r.Ok? {
      var pairs := Escape.ConfigureEscapeCharacters([cfg.DelimiterCharacter, cfg.TerminatorCharacter]);
      g.replacer := Some(pairs);
      var reqBad := RequestRegistry.InitValidator([cfg.DelimiterCharacter, cfg.TerminatorCharacter]);
      g.requestBad := Some(reqBad);
      var respBad := ResponseRegistry.InitValidator([cfg.DelimiterCharacter, cfg.TerminatorCharacter]);
      g.responseBad := Some(respBad);
    }
  }

  /** Each guard, stated on its own. */
  predicate Fails(cfg: Config, parseAddr: ParseAddr, parseAddrPort: ParseAddrPort, k: ConfigFault)
  {
    match k
    case TimeoutNotPositive => cfg.ConnectionTimeout < 1
    case SameTerminatorAndDelimiter => cfg.TerminatorCharacter == cfg.DelimiterCharacter
    case PortOutOfRange => !(1 <= cfg.Port <= 65535)
    case AddrUnparsable => parseAddr(NormalHost(cfg.Host)).None?
    case AddrPortUnparsable =>
      parseAddr(NormalHost(cfg.Host)).Some? && parseAddrPort(AddrPortText(parseAddr(NormalHost(cfg.Host)).value, cfg.Port)).None?
    case TerminatorIn(f) => cfg.TerminatorCharacter in Value(cfg, f)
    case DelimiterIn(f) => cfg.DelimiterCharacter in Value(cfg, f)
  }

  /** The position of a credential in the order NewServer checks them. */
  function FieldRank(f: ConfigField): nat
  {
    match f
    case InstitutionIDField => 0
    case LibraryIDField => 1
    case TerminalUsernameField => 2
    case TerminalPasswordField => 3
  }

  /** The position of a guard in NewServer: terminator before delimiter within each credential. */
  function Rank(k: ConfigFault): nat
  {
    match k
    case TimeoutNotPositive => 0
    case SameTerminatorAndDelimiter => 1
    case PortOutOfRange => 2
    case AddrUnparsable => 3
    case AddrPortUnparsable => 4
    case TerminatorIn(f) => 5 + 2 * FieldRank(f)
    case DelimiterIn(f) => 6 + 2 * FieldRank(f)
  }

  /** A configuration is accepted exactly when no guard fails. */
  lemma Accepted(cfg: Config, parseAddr: ParseAddr, parseAddrPort: ParseAddrPort)
    ensures Build(cfg, parseAddr, parseAddrPort).Ok? <==> forall k :: !Fails(cfg, parseAddr, parseAddrPort, k)
  {
    if Build(cfg, parseAddr, parseAddrPort).Ok? {
      forall k
        ensures !Fails(cfg, parseAddr, parseAddrPort, k)
      {
        if k.TerminatorIn? || k.DelimiterIn? {
          assert Separators(cfg, k.field) == None;
        }
      }
    } else {
      var k := Build(cfg, parseAddr, parseAddrPort).error.fault;
      FirstFailing(cfg, parseAddr, parseAddrPort);
      assert Fails(cfg, parseAddr, parseAddrPort, k);
    }
  }

  /** A refused configuration reports the first guard, in the order of Go's NewServer, that fails. */
  lemma FirstFailing(cfg: Config, parseAddr: ParseAddr, parseAddrPort: ParseAddrPort)
    requires Build(cfg, parseAddr, parseAddrPort).Err?
    ensures var k := Build(cfg, parseAddr, parseAddrPort).error.fault;
      Fails(cfg, parseAddr, parseAddrPort, k) &&
      forall j :: Rank(j) < Rank(k) ==> !Fails(cfg, parseAddr, parseAddrPort, j)
  {
  }

  /** Within one credential the terminator is reported before the delimiter. */
  lemma TerminatorFirst(cfg: Config, parseAddr: ParseAddr, parseAddrPort: ParseAddrPort, f: ConfigField)
    requires cfg.TerminatorCharacter in Value(cfg, f)
    ensures Build(cfg, parseAddr, parseAddrPort) != Err(ConfigError(DelimiterIn(f)))
  {
  }

  /** An ASCII host is "localhost" exactly when each letter is that of "localhost" in either case. */
  lemma LocalhostAnyCase(host: string)
    requires forall i | 0 <= i < |host| :: host[i] as int < 0x80
    ensures IsLocalhost(host) <==>
      |host| == 9 && forall i | 0 <= i < 9 :: host[i] == "localhost"[i] || host[i] == "LOCALHOST"[i]
  {
  }

  /** The default configuration passes every guard NewServer decides by itself. */
  lemma DefaultAccepted(parseAddr: ParseAddr, parseAddrPort: ParseAddrPort)
    requires parseAddr("127.0.0.1").Some?
    requires parseAddrPort(AddrPortText(parseAddr("127.0.0.1").value, 9000)).Some?
    ensures Build(DefaultServerConfig(), parseAddr, parseAddrPort).Ok?
  {
  }

  /** On success no credential holds either separator. */
  lemma CredentialsClean(cfg: Config, parseAddr: ParseAddr, parseAddrPort: ParseAddrPort, f: ConfigField)
    requires Build(cfg, parseAddr, parseAddrPort).Ok?
    ensures cfg.TerminatorCharacter !in Value(cfg, f) && cfg.DelimiterCharacter !in Value(cfg, f)
  {
    Accepted(cfg, parseAddr, parseAddrPort);
    assert !Fails(cfg, parseAddr, parseAddrPort, TerminatorIn(f));
    assert !Fails(cfg, parseAddr, parseAddrPort, DelimiterIn(f));
  }
}
