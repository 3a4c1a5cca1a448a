/**
 * CoinSocket's startup configuration, `CoinSocketConfig`, and the rules by
 * which `init` fills in defaults and rejects incomplete configurations.
 *
 * Option parsing (boost::program_options), the filesystem and the network
 * selector are collaborators: the parsed options arrive as a `VariablesMap`,
 * and what the filesystem and selector would answer is a `Host`.
 */
module Config {
  import opened Wrappers

  const DefaultDataDir := "CoinSocket"
  const DefaultDocDir := "vaultdocs"
  const DefaultConfigFile := "coinsocket.conf"
  const DefaultPeerHost := "localhost"
  const DefaultWebSocketPort := "8080"
  const DefaultAllowedIps := "^\\[(::1|::ffff:127\\.0\\.0\\.1)\\].*"

  /** The string-valued options `init` declares, each under its command-line name. */
  datatype StringOption =
    | ConfigFile | Network | DbUser | DbPasswd | DbName | DataDir | DocDir
    | PeerHost | PeerPort | WsPort | AllowedIps | ConnectKey | TlsCertFile
  {
    function Name(): string
    {
      match this
      case ConfigFile => "config"
      case Network => "network"
      case DbUser => "dbuser"
      case DbPasswd => "dbpasswd"
      case DbName => "dbname"
      case DataDir => "datadir"
      case DocDir => "docdir"
      case PeerHost => "peerhost"
      case PeerPort => "peerport"
      case WsPort => "wsport"
      case AllowedIps => "allowedips"
      case ConnectKey => "connectkey"
      case TlsCertFile => "tlscertfile"
    }
  }

  /**
   * A `po::variables_map`: the string options stored, by option name, the
   * typed `sync` switch, and whether `help` was given.
   */
  datatype VariablesMap = VariablesMap(strings: map<StringOption, string>, sync: Option<bool>, help: bool)
  {
    /** `vm.count(name)` for a string option; `sync.Some?` and `help` stand for the other two. */
    predicate Has(name: StringOption)
    {
      name in strings
    }
  }

  /** `po::store` into a map that already holds values: a value stored earlier is kept. */
  function Store(vm: VariablesMap, later: VariablesMap): (r: VariablesMap)
    ensures forall name :: r.Has(name) <==> vm.Has(name) || later.Has(name)
    ensures r.help == (vm.help || later.help)
    ensures forall name :: name in vm.strings ==> name in r.strings && r.strings[name] == vm.strings[name]
    ensures forall name :: name !in vm.strings && name in later.strings ==>
      name in r.strings && r.strings[name] == later.strings[name]
    ensures r.sync == if vm.sync.Some? then vm.sync else later.sync
  {
    VariablesMap(later.strings + vm.strings, if vm.sync.Some? then vm.sync else later.sync, vm.help || later.help)
  }

  /**
   * What the filesystem answers for the data directory: the outcome of
   * `(!exists(p) && !create_directory(p)) || !is_directory(p)`.
   */
  datatype DataDirState =
    | Directory                         // it exists and is a directory
    | NotADirectory                     // it exists and is something else
    | Creatable                         // it is absent and `create_directory` makes it
    | FilesystemFails(message: string)  // boost throws `filesystem_error` (creating it, or reading its status)
  {
    /** `init` goes on past the check. */
    predicate Usable()
    {
      Directory? || Creatable?
    }
  }

  /** What reading the configuration file answers. */
  datatype ConfigFileState =
    | NoFile                            // `fs::exists` is false
    | Parsed(options: VariablesMap)     // the options parsed from it
    | Unparsable(message: string)       // parsing or storing it throws: an unknown option, a bad value, a repeat

  /** What `init`'s collaborators answer. */
  datatype Host = Host(
    /** The rendered options description, `ss << options`. */
    helpText: string,
    /** `getDefaultDataDir(name)`. */
    defaultDataDir: string -> string,
    /** `getUserProfileDir()`. */
    userProfileDir: string,
    /** What the filesystem answers for a data-directory path. */
    dataDirAt: string -> DataDirState,
    /** What reading the configuration file at a path gives. */
    configFileAt: string -> ConfigFileState,
    /** The networks `NetworkSelector::select` accepts, with each one's default port. */
    defaultPorts: map<string, string>)

  /** The exceptions `init` throws. */
  datatype ConfigError =
    | InvalidDataDir   // ConfigInvalidDataDirException
    | MissingNetwork   // ConfigMissingNetworkException
    | UnknownNetwork   // NetworkSelector::select rejects the name
    | MissingDBName    // ConfigMissingDBNameException
    | FilesystemError(message: string)  // boost::filesystem::filesystem_error
    | OptionsError(message: string)     // a boost::program_options error from the configuration file

  /** The fields of a `CoinSocketConfig`, as one value. */
  datatype Settings = Settings(
    configFile: string,
    networkName: string,
    databaseUser: string,
    databasePassword: string,
    databaseName: string,
    dataDir: string,
    documentDir: string,
    sync: bool,
    peerHost: string,
    peerPort: string,
    webSocketPort: string,
    allowedIps: string,
    connectKey: string,
    tlsCertificateFile: string,
    help: bool,
    helpOptions: string,
    selectedNetwork: Option<string>)

  /** The fields and the exception (if any) that `init` leaves. */
  datatype Resolution = Resolution(settings: Settings, error: Option<ConfigError>)

  // ---------------------------------------------------------------------------
  // Lower-casing, `::tolower` in the "C" locale.

  function LowerChar(c: char): char
  {
    if 'A' <= c <= 'Z' then (c as int + 32) as char else c
  }

  function ToLower(s: string): (r: string)
    ensures |r| == |s|
    ensures forall i :: 0 <= i < |s| ==> r[i] == LowerChar(s[i])
  {
    if s == [] then [] else [LowerChar(s[0])] + ToLower(s[1..])
  }

  /** The result holds no upper-case letter. */
  lemma ToLowerHasNoUpper(s: string)
    ensures forall i :: 0 <= i < |s| ==> !('A' <= ToLower(s)[i] <= 'Z')
  {
  }

  /** Lower-casing twice is lower-casing once. */
  lemma {:induction false} ToLowerIdempotent(s: string)
    ensures ToLower(ToLower(s)) == ToLower(s)
  {
    var t := ToLower(s);
    assert forall i :: 0 <= i < |t| ==> LowerChar(t[i]) == t[i];
  }

  // ---------------------------------------------------------------------------
  // The stages of `init`.

  function Bound(vm: VariablesMap, name: StringOption, current: string): string
  {
    if name in vm.strings then vm.strings[name] else current
  }

  /** `po::notify`: every option stored in `vm` is written to the field it is bound to. */
  function Notify(s: Settings, vm: VariablesMap): Settings
  {
    s.(
      configFile := Bound(vm, ConfigFile, s.configFile),
      networkName := Bound(vm, Network, s.networkName),
      databaseUser := Bound(vm, DbUser, s.databaseUser),
      databasePassword := Bound(vm, DbPasswd, s.databasePassword),
      databaseName := Bound(vm, DbName, s.databaseName),
      dataDir := Bound(vm, DataDir, s.dataDir),
      documentDir := Bound(vm, DocDir, s.documentDir),
      sync := if vm.sync.Some? then vm.sync.value else s.sync,
      peerHost := Bound(vm, PeerHost, s.peerHost),
      peerPort := Bound(vm, PeerPort, s.peerPort),
      webSocketPort := Bound(vm, WsPort, s.webSocketPort),
      allowedIps := Bound(vm, AllowedIps, s.allowedIps),
      connectKey := Bound(vm, ConnectKey, s.connectKey),
      tlsCertificateFile := Bound(vm, TlsCertFile, s.tlsCertificateFile))
  }

  /**
   * The fields `s`, holding the command line, after the network name is
   * lower-cased and the data directory and configuration file are defaulted.
   */
  function Located(s: Settings, cmd: VariablesMap, host: Host): Settings
  {
    var networkName := if cmd.Has(Network) then ToLower(s.networkName) else s.networkName;
    var name := if cmd.Has(Network) then DefaultDataDir + "_" + networkName else DefaultDataDir;
    var dataDir := if cmd.Has(DataDir) then s.dataDir else host.defaultDataDir(name);
    s.(
      networkName := networkName,
      dataDir := dataDir,
      configFile := if cmd.Has(ConfigFile) then s.configFile else dataDir + "/" + DefaultConfigFile)
  }

  /** The options in force after the configuration file, if there is one, is stored. */
  function Merged(cmd: VariablesMap, host: Host, located: Settings): VariablesMap
  {
    match host.configFileAt(located.configFile)
    case Parsed(file) => Store(cmd, file)
    case _ => cmd
  }

  /**
   * The fields after the configuration file is read: the second `po::notify`
   * writes every stored option to its field again, the command line's included.
   */
  function AfterConfigFile(cmd: VariablesMap, host: Host, located: Settings): Settings
  {
    match host.configFileAt(located.configFile)
    case Parsed(file) => Notify(located, Store(cmd, file))
    case _ => located
  }

  /** The defaults for the options that are still unset. */
  function Defaults(s: Settings, vm: VariablesMap, host: Host): Settings
    requires s.networkName in host.defaultPorts
  {
    s.(
      documentDir := if vm.Has(DocDir) then s.documentDir else host.userProfileDir + "/" + DefaultDocDir,
      sync := if vm.sync.Some? then s.sync else false,
      peerHost := if vm.Has(PeerHost) then s.peerHost else DefaultPeerHost,
      peerPort := if vm.Has(PeerPort) then s.peerPort else host.defaultPorts[s.networkName],
      webSocketPort := if vm.Has(WsPort) then s.webSocketPort else DefaultWebSocketPort,
      allowedIps := if vm.Has(AllowedIps) then s.allowedIps else DefaultAllowedIps)
  }

  /**
   * `init`: the fields it leaves and the exception it throws, starting from
   * the fields `start` with the command-line options `cmd`.
   */
  function Resolve(start: Settings, cmd: VariablesMap, host: Host): (r: Resolution)
    ensures cmd.help ==> r.error == None && r.settings.help && r.settings.helpOptions == host.helpText
    ensures !cmd.help ==> r.settings.help == start.help && r.settings.helpOptions == start.helpOptions
    ensures r.error == Some(MissingDBName) ==> r.settings.selectedNetwork == Some(r.settings.networkName)
    ensures !cmd.help && r.error == None ==>
      && r.settings.selectedNetwork == Some(r.settings.networkName)
      && r.settings.networkName in host.defaultPorts
  {
    if cmd.help then
      Resolution(Notify(start, cmd).(help := true, helpOptions := host.helpText), None)
    else
      var located := Located(Notify(start, cmd), cmd, host);
      var dir := host.dataDirAt(located.dataDir);
      if dir.NotADirectory? then Resolution(located, Some(InvalidDataDir))
      else if dir.FilesystemFails? then Resolution(located, Some(FilesystemError(dir.message)))
      else if host.configFileAt(located.configFile).Unparsable? then
        Resolution(located, Some(OptionsError(host.configFileAt(located.configFile).message)))
      else
        var vm := Merged(cmd, host, located);
        var read := AfterConfigFile(cmd, host, located);
        if !vm.Has(Network) then Resolution(read, Some(MissingNetwork))
        else if read.networkName !in host.defaultPorts then Resolution(read, Some(UnknownNetwork))
        else
          var selected := read.(selectedNetwork := Some(read.networkName));
          if !vm.Has(DbName) then Resolution(selected, Some(MissingDBName))
          else Resolution(Defaults(selected, vm, host), None)
  }

  // ---------------------------------------------------------------------------
  // The object.

  /**
   * A `CoinSocketConfig`. Its private members are held together as the
   * record `fields`; `init` updates them one at a time.
   */
  class CoinSocketConfig {
    var fields: Settings

    /** The constructor: help is off, every string empty, no network selected. */
    constructor ()
      ensures !fields.help
      ensures fields == Settings("", "", "", "", "", "", "", false, "", "", "", "", "", "", false, "", None)
    {
      fields := Settings("", "", "", "", "", "", "", false, "", "", "", "", "", "", false, "", None);
    }

    /** `po::notify(vm)`: writes each stored option to its field. */
    method NotifyFields(vm: VariablesMap)
      modifies this
      ensures fields == Notify(old(fields), vm)
    {
      var s := fields;
      s := s.(configFile := Bound(vm, ConfigFile, s.configFile));
      s := s.(networkName := Bound(vm, Network, s.networkName));
      s := s.(databaseUser := Bound(vm, DbUser, s.databaseUser));
      s := s.(databasePassword := Bound(vm, DbPasswd, s.databasePassword));
      s := s.(databaseName := Bound(vm, DbName, s.databaseName));
      s := s.(dataDir := Bound(vm, DataDir, s.dataDir));
      s := s.(documentDir := Bound(vm, DocDir, s.documentDir));
      s := s.(sync := if vm.sync.Some? then vm.sync.value else s.sync);
      s := s.(peerHost := Bound(vm, PeerHost, s.peerHost));
      s := s.(peerPort := Bound(vm, PeerPort, s.peerPort));
      s := s.(webSocketPort := Bound(vm, WsPort, s.webSocketPort));
      s := s.(allowedIps := Bound(vm, AllowedIps, s.allowedIps));
      s := s.(connectKey := Bound(vm, ConnectKey, s.connectKey));
      s := s.(tlsCertificateFile := Bound(vm, TlsCertFile, s.tlsCertificateFile));
      fields := s;
    }

    /** The defaults of `init`'s last six lines, each applied only to an option `vm` lacks. */
    method ApplyDefaults(vm: VariablesMap, host: Host)
      requires fields.networkName in host.defaultPorts
      modifies this
      ensures fields == Defaults(old(fields), vm, host)
    {
      var s := fields;
      if !vm.Has(DocDir) { s := s.(documentDir := host.userProfileDir + "/" + DefaultDocDir); }
      if vm.sync.None? { s := s.(sync := false); }
      if !vm.Has(PeerHost) { s := s.(peerHost := DefaultPeerHost); }
      if !vm.Has(PeerPort) { s := s.(peerPort := host.defaultPorts[s.networkName]); }
      if !vm.Has(WsPort) { s := s.(webSocketPort := DefaultWebSocketPort); }
      if !vm.Has(AllowedIps) { s := s.(allowedIps := DefaultAllowedIps); }
      fields := s;
    }

    /**
     * The lower-casing of the network name and the defaulting of the data
     * directory and the configuration file, for the command line `cmd`.
     */
    method Locate(cmd: VariablesMap, host: Host)
      modifies this
      ensures fields == Located(old(fields), cmd, host)
    {
      var s := fields;
      var datadir := DefaultDataDir;
      if cmd.Has(Network) {
        var name := s.networkName;
        var i := 0;
        while i < |name|
          invariant i <= |name| == |s.networkName|
          invariant forall j :: 0 <= j < i ==> name[j] == LowerChar(s.networkName[j])
          invariant forall j :: i <= j < |name| ==> name[j] == s.networkName[j]
        {
          name := name[i := LowerChar(name[i])];
          i := i + 1;
        }
        assert name == ToLower(s.networkName);
        s := s.(networkName := name);
        datadir := datadir + "_";
        datadir := datadir + s.networkName;
      }

      if !cmd.Has(DataDir) { s := s.(dataDir := host.defaultDataDir(datadir)); }
      if !cmd.Has(ConfigFile) { s := s.(configFile := s.dataDir + "/" + DefaultConfigFile); }
      fields := s;
    }

    /**
     * `init`, from the parsed command line on: the help short-circuit, the
     * network and data-directory names, the data-directory check, the
     * configuration file, the two required options and the defaults.
     */
    method Init(cmd: VariablesMap, host: Host) returns (error: Option<ConfigError>)
      modifies this
      ensures Resolution(fields, error) == Resolve(old(fields), cmd, host)
    {
      NotifyFields(cmd);
      if cmd.help {
        fields := fields.(help := true);
        fields := fields.(helpOptions := host.helpText);
        return None;
      }

      Locate(cmd, host);

      var dir := host.dataDirAt(fields.dataDir);
      if dir.NotADirectory? {
        return Some(InvalidDataDir);
      }
      if dir.FilesystemFails? {
        return Some(FilesystemError(dir.message));
      }

      var vm := cmd;
      var file := host.configFileAt(fields.configFile);
      if file.Unparsable? {
        return Some(OptionsError(file.message));
      }
      if file.Parsed? {
        vm := Store(vm, file.options);
        NotifyFields(vm);
      }

      if !vm.Has(Network) {
        return Some(MissingNetwork);
      }
      if fields.networkName !in host.defaultPorts {
        return Some(UnknownNetwork);
      }
      fields := fields.(selectedNetwork := Some(fields.networkName));

      if !vm.Has(DbName) {
        return Some(MissingDBName);
      }
      ApplyDefaults(vm, host);
      return None;
    }
  }

  // ---------------------------------------------------------------------------
  // What `init` promises.

  /**
   * With `help`, `init` records the help text and returns: no default is
   * applied, no check made and nothing but the help text is consulted.
   */
  lemma HelpShortCircuits(start: Settings, cmd: VariablesMap, host: Host, other: Host)
    requires cmd.help
    ensures Resolve(start, cmd, host) == Resolution(Notify(start, cmd).(help := true, helpOptions := host.helpText), None)
    ensures other.helpText == host.helpText ==> Resolve(start, cmd, other) == Resolve(start, cmd, host)
  {
  }

  /**
   * A network given on the command line is lower-cased and names the default
   * data directory "CoinSocket_<network>"; without one the name is
   * "CoinSocket". An unset data directory is the default one for that name.
   */
  lemma DataDirectoryNaming(start: Settings, cmd: VariablesMap, host: Host)
    ensures var s := Located(Notify(start, cmd), cmd, host);
      && (cmd.Has(Network) ==> s.networkName == ToLower(cmd.strings[Network]))
      && (!cmd.Has(Network) ==> s.networkName == start.networkName)
      && (!cmd.Has(DataDir) && cmd.Has(Network) ==>
          s.dataDir == host.defaultDataDir("CoinSocket_" + ToLower(cmd.strings[Network])))
      && (!cmd.Has(DataDir) && !cmd.Has(Network) ==> s.dataDir == host.defaultDataDir("CoinSocket"))
      && (cmd.Has(DataDir) ==> s.dataDir == cmd.strings[DataDir])
  {
    var n := Notify(start, cmd);
    assert n.networkName == Bound(cmd, Network, start.networkName);
    assert n.dataDir == Bound(cmd, DataDir, start.dataDir);
    assert DefaultDataDir + "_" == "CoinSocket_";
  }

  /** An unset configuration file is "coinsocket.conf" inside the data directory. */
  lemma ConfigFileNaming(start: Settings, cmd: VariablesMap, host: Host)
    ensures var s := Located(Notify(start, cmd), cmd, host);
      && (!cmd.Has(ConfigFile) ==> s.configFile == s.dataDir + "/coinsocket.conf")
      && (cmd.Has(ConfigFile) ==> s.configFile == cmd.strings[ConfigFile])
  {
    var n := Notify(start, cmd);
    assert n.configFile == Bound(cmd, ConfigFile, start.configFile);
    var s := Located(n, cmd, host);
    assert s.dataDir + "/" + DefaultConfigFile == s.dataDir + "/coinsocket.conf";
  }

  /**
   * The data directory is checked before the configuration file is read:
   * a path that exists but is no directory raises
   * ConfigInvalidDataDirException, and a filesystem error (a directory that
   * cannot be created, a status that cannot be read) escapes as boost's
   * `filesystem_error`; either leaves the fields as located.
   */
  lemma InvalidDataDirRejected(start: Settings, cmd: VariablesMap, host: Host)
    requires !cmd.help
    ensures var located := Located(Notify(start, cmd), cmd, host);
      && (Resolve(start, cmd, host).error == Some(InvalidDataDir) <==> host.dataDirAt(located.dataDir).NotADirectory?)
      && (host.dataDirAt(located.dataDir).NotADirectory? ==> Resolve(start, cmd, host).settings == located)
      && (host.dataDirAt(located.dataDir).FilesystemFails? ==>
          Resolve(start, cmd, host) == Resolution(located, Some(FilesystemError(host.dataDirAt(located.dataDir).message))))
  {
  }

  /**
   * A configuration file that cannot be parsed stops `init` with the
   * options error, after the data directory was checked (and perhaps
   * created) and before any option from the file takes effect.
   */
  lemma MalformedConfigFileRejected(start: Settings, cmd: VariablesMap, host: Host)
    requires !cmd.help
    requires host.dataDirAt(Located(Notify(start, cmd), cmd, host).dataDir).Usable()
    ensures var located := Located(Notify(start, cmd), cmd, host);
      host.configFileAt(located.configFile).Unparsable? ==>
        Resolve(start, cmd, host) == Resolution(located, Some(OptionsError(host.configFileAt(located.configFile).message)))
    ensures var located := Located(Notify(start, cmd), cmd, host);
      Resolve(start, cmd, host).error.Some? && Resolve(start, cmd, host).error.value.OptionsError? ==>
        host.configFileAt(located.configFile).Unparsable?
  {
  }

  /**
   * The network is required, and checked before the database name: with
   * neither, the error is the missing network.
   */
  lemma NetworkCheckedBeforeDBName(start: Settings, cmd: VariablesMap, host: Host)
    requires !cmd.help && host.dataDirAt(Located(Notify(start, cmd), cmd, host).dataDir).Usable()
    requires !host.configFileAt(Located(Notify(start, cmd), cmd, host).configFile).Unparsable?
    ensures var vm := Merged(cmd, host, Located(Notify(start, cmd), cmd, host));
      && (!vm.Has(Network) ==> Resolve(start, cmd, host).error == Some(MissingNetwork))
      && (Resolve(start, cmd, host).error == Some(MissingDBName) ==> vm.Has(Network) && !vm.Has(DbName))
      && (vm.Has(Network) && vm.Has(DbName) ==> Resolve(start, cmd, host).error != Some(MissingDBName))
  {
  }

  /**
   * The fields a successful `init` leaves are the defaults applied to the
   * fields after the configuration file, with the network selected.
   */
  lemma ResolvedSettings(start: Settings, cmd: VariablesMap, host: Host)
    requires !cmd.help
    requires Resolve(start, cmd, host).error == None
    ensures var located := Located(Notify(start, cmd), cmd, host);
      var read := AfterConfigFile(cmd, host, located);
      && read.networkName in host.defaultPorts
      && Merged(cmd, host, located).Has(DbName)
      && Resolve(start, cmd, host).settings
         == Defaults(read.(selectedNetwork := Some(read.networkName)), Merged(cmd, host, located), host)
  {
  }

  /**
   * After a successful `init` each defaulted option holds the value
   * supplied for it or, when none was, its default, and the database name
   * holds the one supplied.
   */
  lemma DefaultsNeverOverwrite(start: Settings, cmd: VariablesMap, host: Host)
    requires !cmd.help
    requires Resolve(start, cmd, host).error == None
    ensures var s := Resolve(start, cmd, host).settings;
      var vm := Merged(cmd, host, Located(Notify(start, cmd), cmd, host));
      && (if vm.Has(DocDir) then s.documentDir == vm.strings[DocDir]
          else s.documentDir == host.userProfileDir + "/" + DefaultDocDir)
      && (if vm.sync.Some? then s.sync == vm.sync.value else !s.sync)
      && (if vm.Has(PeerHost) then s.peerHost == vm.strings[PeerHost] else s.peerHost == DefaultPeerHost)
      && (if vm.Has(PeerPort) then s.peerPort == vm.strings[PeerPort]
          else s.peerPort == host.defaultPorts[s.networkName])
      && (if vm.Has(WsPort) then s.webSocketPort == vm.strings[WsPort] else s.webSocketPort == DefaultWebSocketPort)
      && (if vm.Has(AllowedIps) then s.allowedIps == vm.strings[AllowedIps]
          else s.allowedIps == DefaultAllowedIps)
      && s.databaseName == vm.strings[DbName]
  {
    var located := Located(Notify(start, cmd), cmd, host);
    var vm := Merged(cmd, host, located);
    var read := AfterConfigFile(cmd, host, located);
    var selected := read.(selectedNetwork := Some(read.networkName));
    ResolvedSettings(start, cmd, host);
    SuppliedOptionsKept(start, cmd, host);
    DefaultsFillUnsupplied(selected, vm, host);
    var s := Resolve(start, cmd, host).settings;
    assert s.networkName == selected.networkName;
    assert vm.Has(DbName) ==> Field(s, DbName) == vm.strings[DbName];
    assert vm.Has(DocDir) ==> Field(s, DocDir) == vm.strings[DocDir];
    assert vm.Has(PeerHost) ==> Field(s, PeerHost) == vm.strings[PeerHost];
    assert vm.Has(PeerPort) ==> Field(s, PeerPort) == vm.strings[PeerPort];
    assert vm.Has(WsPort) ==> Field(s, WsPort) == vm.strings[WsPort];
    assert vm.Has(AllowedIps) ==> Field(s, AllowedIps) == vm.strings[AllowedIps];
  }

  /** Each option the map lacks gets its default. */
  lemma DefaultsFillUnsupplied(s: Settings, vm: VariablesMap, host: Host)
    requires s.networkName in host.defaultPorts
    ensures var d := Defaults(s, vm, host);
      && (!vm.Has(DocDir) ==> d.documentDir == host.userProfileDir + "/" + DefaultDocDir)
      && (vm.sync.None? ==> !d.sync)
      && (!vm.Has(PeerHost) ==> d.peerHost == DefaultPeerHost)
      && (!vm.Has(PeerPort) ==> d.peerPort == host.defaultPorts[s.networkName])
      && (!vm.Has(WsPort) ==> d.webSocketPort == DefaultWebSocketPort)
      && (!vm.Has(AllowedIps) ==> d.allowedIps == DefaultAllowedIps)
      && d.networkName == s.networkName
  {
  }

  /** The field each string option is bound to by `po::value`. */
  function Field(s: Settings, o: StringOption): string
  {
    match o
    case ConfigFile => s.configFile
    case Network => s.networkName
    case DbUser => s.databaseUser
    case DbPasswd => s.databasePassword
    case DbName => s.databaseName
    case DataDir => s.dataDir
    case DocDir => s.documentDir
    case PeerHost => s.peerHost
    case PeerPort => s.peerPort
    case WsPort => s.webSocketPort
    case AllowedIps => s.allowedIps
    case ConnectKey => s.connectKey
    case TlsCertFile => s.tlsCertificateFile
  }

  /** `po::notify` writes exactly the stored options, each to its own field. */
  lemma NotifyBindsEveryOption(s: Settings, vm: VariablesMap)
    ensures forall o :: Field(Notify(s, vm), o) == if vm.Has(o) then vm.strings[o] else Field(s, o)
    ensures Notify(s, vm).sync == if vm.sync.Some? then vm.sync.value else s.sync
    ensures Notify(s, vm).help == s.help && Notify(s, vm).helpOptions == s.helpOptions
    ensures Notify(s, vm).selectedNetwork == s.selectedNetwork
  {
  }

  /** Locating changes only the network name and the unsupplied data directory and configuration file. */
  lemma {:induction false} LocatedKeepsSupplied(n: Settings, cmd: VariablesMap, host: Host, o: StringOption)
    requires o != Network && (o == DataDir || o == ConfigFile ==> cmd.Has(o))
    ensures Field(Located(n, cmd, host), o) == Field(n, o)
  {
  }

  /** The defaults touch only options the map lacks. */
  lemma {:induction false} DefaultsKeepSupplied(s: Settings, vm: VariablesMap, host: Host, o: StringOption)
    requires s.networkName in host.defaultPorts
    requires vm.Has(o)
    ensures Field(Defaults(s, vm, host), o) == Field(s, o)
  {
  }

  /**
   * After a successful `init` every string option present in the merged
   * map, the network name aside, holds the value stored for it.
   */
  lemma SuppliedOptionsKept(start: Settings, cmd: VariablesMap, host: Host)
    requires !cmd.help
    requires Resolve(start, cmd, host).error == None
    ensures var vm := Merged(cmd, host, Located(Notify(start, cmd), cmd, host));
      forall o :: o != Network && vm.Has(o) ==> Field(Resolve(start, cmd, host).settings, o) == vm.strings[o]
    ensures var vm := Merged(cmd, host, Located(Notify(start, cmd), cmd, host));
      vm.sync.Some? ==> Resolve(start, cmd, host).settings.sync == vm.sync.value
  {
    var n := Notify(start, cmd);
    var located := Located(n, cmd, host);
    var vm := Merged(cmd, host, located);
    var read := AfterConfigFile(cmd, host, located);
    ResolvedSettings(start, cmd, host);
    var selected := read.(selectedNetwork := Some(read.networkName));
    forall o | o != Network && vm.Has(o)
      ensures Field(Resolve(start, cmd, host).settings, o) == vm.strings[o]
    {
      DefaultsKeepSupplied(selected, vm, host, o);
      assert Field(selected, o) == Field(read, o);
      if host.configFileAt(located.configFile).Parsed? {
        NotifyBindsEveryOption(located, vm);
      } else {
        NotifyBindsEveryOption(start, cmd);
        LocatedKeepsSupplied(n, cmd, host, o);
      }
    }
    if host.configFileAt(located.configFile).Parsed? {
      NotifyBindsEveryOption(located, vm);
    } else {
      NotifyBindsEveryOption(start, cmd);
    }
  }

  /**
   * When a configuration file exists, the second `po::notify` writes the
   * command-line network name back over its lower-cased copy, so the name
   * selected keeps the spelling it was given; without a file it stays
   * lower-cased.
   */
  lemma ConfigFileRestoresNetworkSpelling(start: Settings, cmd: VariablesMap, host: Host)
    requires !cmd.help && cmd.Has(Network)
    requires host.dataDirAt(Located(Notify(start, cmd), cmd, host).dataDir).Usable()
    ensures host.configFileAt(Located(Notify(start, cmd), cmd, host).configFile).Parsed? ==>
      Resolve(start, cmd, host).settings.networkName == cmd.strings[Network]
    ensures host.configFileAt(Located(Notify(start, cmd), cmd, host).configFile).NoFile? ==>
      Resolve(start, cmd, host).settings.networkName == ToLower(cmd.strings[Network])
  {
  }
}
