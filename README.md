# CoinSocket core, modelled in Dafny

CoinSocket is a WebSocket server that sits in front of a CoinDB vault and
answers JSON-RPC requests from browser clients. This project models three
pieces of its sequential logic and proves what each promises.

- **The channel registry** (`channels.dfy`, module `Channels`). The registry
  has two parts: a set of channel names, and a multimap from a channel-set name to
  channel names. `ChannelRegistry` holds the set as `channels` and the
  multimap as `channelSets`, a sequence kept in the multimap's iteration
  order. That order is sorted by key under `std::string`'s lexicographic
  `<` (`Less`), with equal keys kept in insertion order because a multimap
  inserts at the key's upper bound (`InsertAtUpperBound`). Ghost histories
  (`addedChannels`, `addedItems`) record every call. The invariant `Valid`
  ties the containers to those histories: the set is the set of names
  added, and the multimap is `Build(addedItems)`. A channel range is
  an index pair over `channelSets`, from the lower bound to the upper
  bound of the set name.
- **The request dispatcher** (`dispatch.dfy`, module `Dispatch`).
  `requestCallback` answers `status`, `listaccounts`, `subscribe` and any
  other method. `Dispatch` is the decision procedure as a function of the
  vault's answers and the request. `RequestCallback` is the imperative
  callback with its account-listing loop, proved to send exactly
  `Dispatch(vault, req)` to the requesting connection. A vault query is a
  `Query` that either answers or fails with a message, which is how a thrown
  `std::exception` reaches the catch block. Unsigned numbers are rendered
  by `Decimal`, the `operator<<` of a `stringstream`.
- **Configuration resolution** (`config.dfy`, module `Config`).
  `CoinSocketConfig::init` fills the configuration's fields from the command
  line, the configuration file and the defaults. The command line and the
  configuration file arrive as parsed `VariablesMap`s. The filesystem, the
  default directories and the network selector form a `Host`, whose answers include
  the filesystem and parse errors `init` lets escape. `Resolve` states, as a function,
  the fields and the exception `init` leaves. `CoinSocketConfig.Init` does it
  step by step, with the lower-casing loop of `std::transform`, and is
  proved to reach `Resolve`'s outcome.

One behaviour of `init` is modelled as written and stated as a lemma. When
a configuration file exists, the second `po::notify` writes every stored
option back to its field, the command line's included. So the network name,
lower-cased earlier, returns to the spelling it was given on the command
line before it is passed to the network selector. A `datadir` or `config`
value written in the file also replaces the one resolved earlier
(`ConfigFileRestoresNetworkSpelling`, `AfterConfigFile`).

## Model

| member | source | states |
|---|---|---|
| Channels.ChannelRegistry.constructor | src/channels.h:21-22 | The registry starts with no channel and no channel-set pair, and its invariant holds. |
| Channels.ChannelRegistry.AddChannel | src/channels.h:21-27 | The channel set gains the name, and re-adding a present name changes nothing, so each name is held once; the channel sets are untouched. |
| Channels.ChannelRegistry.ChannelExists | src/channels.h:28 | True exactly when the name was passed to `addChannel` earlier, so it is true after `addChannel(c)`. |
| Channels.ChannelRegistry.GetChannels | src/channels.h:21-26 | The set returned is exactly the names passed to `addChannel` so far. |
| Channels.ChannelRegistry.GetChannelSets | src/channels.h:22-30 | The multimap is sorted by key, holds every pair added (duplicates included), and lists each key's channels in the order they were added. |
| Channels.ChannelRegistry.AddChannelToSet | src/channels.h:22-31 | Exactly one `(set, channel)` pair is inserted at the key's upper bound, duplicates kept; the set's channels gain the channel at the end, other sets are unchanged and the channel collection is untouched. |
| Channels.ChannelRegistry.GetChannelRange | src/channels.h:24-33 | The range covers exactly the pairs with the given key, lists their channels in insertion order, and is empty (`isChannelRangeEmpty`, begin equals end) exactly when that key was never used. |
| Channels.LowerBound | src/channels.h:24-32 | The first position whose key is not less than the set name, in a sorted multimap. |
| Channels.UpperBound | src/channels.h:24-32 | The first position whose key is greater than the set name, where `insert` places a new pair. |
| Channels.InsertAtUpperBound | src/channels.h:22-31 | Insertion grows the multimap by exactly one pair. |
| Channels.InsertAddsItem | src/channels.h:22-31 | Insertion adds exactly the inserted pair, as a multiset. |
| Channels.InsertKeepsSorted | src/channels.h:22-31 | Insertion at the upper bound keeps the multimap sorted by key. |
| Channels.InsertKeepsOrder | src/channels.h:22-31 | Insertion appends the channel to the end of its key's channels and leaves every other key's channels as they were. |
| Channels.InsertAtUpperBoundAt | src/channels.h:22-31 | Inserting at the upper bound found by a search is splicing the pair in at that position. |
| Channels.BuildSorted | src/channels.h:22 | The multimap built from any insertion history is sorted and holds exactly the pairs inserted. |
| Channels.BuildKeepsInsertionOrder | src/channels.h:22-32 | In the multimap built from a history, each key's channels are that key's channels in the history, in insertion order. |
| Channels.LessIrreflexive | src/channels.h:21-22 | No name sorts before itself. |
| Channels.LessTransitive | src/channels.h:21-22 | The key order is transitive. |
| Channels.LessTotal | src/channels.h:21-22 | Any two distinct names are ordered one way or the other. |
| Channels.ChannelsOfAppend | src/channels.h:22-32 | A key's channels in two concatenated stretches are its channels in each, in order. |
| Channels.EmptyRangeHasNoChannels | src/channels.h:33 | `isChannelRangeEmpty` (begin equals end) on the range a key occupies holds exactly when no channel is paired with that key. |
| Channels.LessProperPrefix | src/channels.h:22 | In the multimap's key order a proper prefix sorts first, and no name sorts before its own prefix. |
| Channels.LessFirstDifference | src/channels.h:22 | Two names that agree up to a position and differ there are ordered by their characters at that position, as `std::string` compares. |
| Channels.ChannelsOfBlock | src/channels.h:24-32 | When a key occupies exactly one contiguous block, its channels are that block's values. |
| Dispatch.Dispatch | src/main.cpp:57-107 | Exactly one response per request: an error always carries the request id, the empty response comes from `subscribe` alone, and a result only from `status` or `listaccounts`. |
| Dispatch.RequestCallback | src/main.cpp:51-110 | The callback builds the account objects in a loop and sends to the requesting connection exactly the response `Dispatch` decides. |
| Dispatch.StatusReportsVault | src/main.cpp:64-75 | `status` answers an object with keys `name`, `schema`, `horizon` in that order; the schema version and horizon are decimal strings that read back as the vault's numbers. |
| Dispatch.StatusReportsFirstFailure | src/main.cpp:62-107 | A failing vault query in `status` becomes an error with that query's message and the request id; name, schema and horizon are asked in that order. |
| Dispatch.ListAccountsRejectsParameters | src/main.cpp:76-106 | `listaccounts` with any parameter is the error "Invalid parameters." with the request id, whatever the vault holds. |
| Dispatch.ListAccountsListsVault | src/main.cpp:81-94 | `listaccounts` answers `{accounts: [...]}` with one `{name, id}` object per vault account, in vault order, the id a decimal string that reads back as the account id. |
| Dispatch.ListAccountsReportsFailure | src/main.cpp:81-106 | A failing account query becomes an error with its message and the request id. |
| Dispatch.SubscribeAnswersEmpty | src/main.cpp:96-98 | `subscribe` produces neither result nor error, whatever the vault holds. |
| Dispatch.UnknownMethodIsError | src/main.cpp:99-106 | Any other method is the error "Invalid method." with the request id, whatever the vault holds. |
| Dispatch.Decimal | src/main.cpp:68-69 | The rendering of a number is a non-empty string of digits. |
| Dispatch.DecimalRoundTrip | src/main.cpp:68-69 | Reading the decimal rendering back gives the number. |
| Dispatch.DecimalNoLeadingZero | src/main.cpp:68-69 | The rendering starts with '0' only for zero. |
| Dispatch.DecimalInjective | src/main.cpp:68-69 | Distinct numbers render differently. |
| Dispatch.DigitChar | src/main.cpp:68-69 | A digit value renders as a character between '0' and '9'. |
| Config.CoinSocketConfig.constructor | src/config.h:36 | A new configuration has help off. |
| Config.CoinSocketConfig.NotifyFields | src/config.h:85-105 | `po::notify` writes each option stored in the map to the field it is bound to and leaves the others. |
| Config.CoinSocketConfig.Locate | src/config.h:116-126 | The network name given on the command line is lower-cased in place, the data directory defaults to the one named after it, and the configuration file defaults to a file inside the data directory. |
| Config.CoinSocketConfig.ApplyDefaults | src/config.h:146-151 | Each option the merged map lacks gets its default, the peer port the selected network's. |
| Config.CoinSocketConfig.Init | src/config.h:81-151 | Running `init` leaves the fields and throws the exception that `Resolve` describes. |
| Config.Resolve | src/config.h:103-151 | Help never throws and stores the help text; without help the help fields are untouched; a missing database name is only reported once a network was selected; a successful run has selected its network name, which the selector accepts. |
| Config.Store | src/config.h:137 | Storing keeps every value stored earlier, adds only the options not yet stored, and ORs `help`. |
| Config.ToLower | src/config.h:119 | Lower-casing keeps the length and maps each character by `tolower`. |
| Config.ToLowerHasNoUpper | src/config.h:119 | A lower-cased name holds no upper-case letter. |
| Config.ToLowerIdempotent | src/config.h:119 | Lower-casing twice is lower-casing once. |
| Config.HelpShortCircuits | src/config.h:107-114 | With `help`, `init` stores the help text and returns without applying a default, making a check or consulting anything but the help text. |
| Config.DataDirectoryNaming | src/config.h:116-125 | A command-line network is lower-cased and names the data directory "CoinSocket_<network>", otherwise "CoinSocket"; an unset data directory is the default for that name. |
| Config.ConfigFileNaming | src/config.h:126 | An unset configuration file is "coinsocket.conf" inside the data directory; a supplied one is kept. |
| Config.InvalidDataDirRejected | src/config.h:128-131 | `init` throws the invalid-data-directory exception exactly when the resolved data directory exists and is not a directory; a directory that cannot be created, or whose status cannot be read, ends `init` with boost's filesystem error carrying its message; either way the fields are left as located. |
| Config.MalformedConfigFileRejected | src/config.h:133-140 | A configuration file that cannot be parsed or stored ends `init` with that options error, after the data-directory check and before any option in the file takes effect; no other path produces an options error. |
| Config.NetworkCheckedBeforeDBName | src/config.h:142-145 | A missing network is reported as such, before the database name is looked at; the missing-database-name error means a network was present and the name absent. |
| Config.DefaultsNeverOverwrite | src/config.h:144-151 | After a successful `init` the document directory, sync, peer host, peer port, websocket port and allowed addresses each hold the value supplied for them or, when none was, their default ("<profile>/vaultdocs", off, "localhost", the network's port, "8080", the loopback-only address pattern); the database name holds the one supplied. |
| Config.SuppliedOptionsKept | src/config.h:103-151 | After a successful `init` every string option in the merged map other than the network holds the value stored for it (database user, password and name, data directory, configuration file, connect key, certificate file and the defaulted ones), and a supplied `sync` holds its value. |
| Config.ResolvedSettings | src/config.h:142-151 | A successful `init` has found the network among the selector's networks and a database name in the map, and its fields are the defaults applied to the fields after the configuration file, with the network selected. |
| Config.DefaultsFillUnsupplied | src/config.h:146-151 | Each option the map lacks gets its default, and the network name is unchanged. |
| Config.DefaultsKeepSupplied | src/config.h:146-151 | The defaults never change an option the map holds. |
| Config.NotifyBindsEveryOption | src/config.h:85-105 | `po::notify` writes each stored option to the field it is bound to and leaves every other field, the help state and the selected network as they were. |
| Config.LocatedKeepsSupplied | src/config.h:116-126 | Lower-casing and defaulting change no field but the network name and an unsupplied data directory or configuration file. |
| Config.ConfigFileRestoresNetworkSpelling | src/config.h:116-143 | With a configuration file present, the network name handed to the selector is the command line's spelling; without one it is the lower-cased name. |

## Left out

- `main()` (src/main.cpp:112-192) is not part of this model: it covers process start-up, the `SIGINT` handler, the shutdown wait loop, and starting and stopping the server.
- `openCallback` and `closeCallback` only log and send a fixed "connected" result.
- The vault event hooks only print hashes.
- No fan-out of events to channels exists in the code, and no locking or concurrency is present in these files.
- The registry is modelled as one object rather than the process-wide globals that `channels.h` declares. Its definitions are not part of this model, so the behaviour follows the container types `std::set` and `std::multimap`.
- `Channels.LowerBound` and `Channels.UpperBound`: search by a linear scan rather than the multimap's tree. They return the same positions, but logarithmic cost is not modelled.
- `Channels.ChannelRegistry.GetChannels`: returns a copy of the set. `getChannels` returns a live `const` reference that later `addChannel` calls change.
- `Channels.ChannelRegistry.GetChannelRange`: returns positions into the multimap's order. Multimap iterators stay valid across later insertions, so a non-empty range grows to include a pair later inserted at its key's upper bound. The model's index pair shifts instead.
- `Channels.Less`: compares characters by code point, which is `std::string`'s byte order for single-byte text. It assumes no locale.
- Option parsing by `boost::program_options` is not modelled. A parsed map arrives as a `VariablesMap` whose keys are the thirteen declared string options. A command line that fails to parse throws at src/config.h:104, before any of the logic modelled here runs. A configuration file that fails to parse or store throws at src/config.h:137; that path is modelled as the `OptionsError` outcome of `Host.configFileAt`, with the error message as an input.
- File reading and the filesystem are not modelled. `Host.dataDirAt` stands for the outcome of the exists, create and is-directory test, including the `filesystem_error` boost throws. `Host.configFileAt` stands for the file's existence and what parsing it gives.
- Creating the data directory is a side effect of `init` that the model does not record. A filesystem error while testing whether the configuration file exists (src/config.h:134) is not modelled.
- `getDefaultDataDir` and `getUserProfileDir` are inputs in `Host`. `CoinQ::NetworkSelector` is reduced to the set of network names it accepts, each with its default port.
- The allowed-IPs regular expression is stored as a string and never evaluated.
- The help text is an input, `Host.helpText`, rather than the rendered options description.
- `Config.ToLower`: maps code points 'A' to 'Z' down by 32. `::tolower` works on bytes and is undefined for a negative `char`, which the model does not represent.
- `Config.CoinSocketConfig.constructor`: sets `sync` to false, but the source leaves `m_bSync` uninitialised, so its value before `init` is indeterminate.
- `Config.CoinSocketConfig`: holds its fourteen option fields and help state as one record field, `fields`. They are not separate heap fields, and each step rewrites the record. Aliasing between fields is impossible in the source anyway.
- The getters of `CoinSocketConfig` are not modelled; they only read fields.
- `getDatabaseFile`, which src/main.cpp:174 calls, is declared nowhere in src/config.h, so it is not modelled.
- `Dispatch.RequestCallback`: models the vault as values each query returns or a failure message for it. The null vault pointer and exceptions not derived from `std::exception` are not modelled.
- The JSON-RPC response is modelled as a `Response` value rather than a mutated object, and `server.send` as the returned `Sent` value.
- `Dispatch.Decimal`: renders unbounded naturals. Fixed-width unsigned overflow does not arise, because the vault's numbers are read, not computed.
- The browser client in `html/js/coinsocketapi.js` is user-interface code and is not modelled.
