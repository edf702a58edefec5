/** The console host: its state (API key, client, module registry, selected
    module, last module listing, translations, configuration) and the
    commands that change it. Everything outside the program (the key typed
    at the prompt, the remote service, the key file) comes in as a `World`. */
module Host {
  import opened Base
  import opened Strings
  import opened Records
  import opened PluginKit
  import Dict
  import opened Translations
  import opened Connection
  import opened Registry
  import opened DirectFilter
  import ComfyUI
  import EngExample
  import DeviceSearch
  import VncDisabledAuth
  import FtpAnonymousLogin

  /** `shodan.Shodan(key)`: a client remembers the key it was made with. */
  datatype Client = Client(key: string)

  /** The configuration keys the program reads; a key the configuration
      file lacks is `None`. */
  datatype Config = Config(
    minRequests: Option<int>,       // default:min_requests
    maxResults: Option<int>,        // default:max_results
    keyFile: Option<string>,        // autoconnect:api_key_file
    autoMinRequests: Option<int>)   // autoconnect:min_requests

  /** Opening and reading a file: it does not exist, reading it raises, or
      its text as text mode reads it, that is after newline translation,
      so a line break in `text` is always a single '\n'. */
  datatype FileRead = NoSuchFile | ReadFailed(message: string) | FileText(text: string)

  /** The world outside the program: the key typed when `connect` prompts,
      the service's answers for a given key, and the file system. */
  datatype World = World(
    typedKey: string,
    info: string -> InfoAnswer,
    search: string -> Remote,
    readFile: string -> FileRead)

  const DefaultMinRequests := 10
  const DefaultMaxResults := 50
  const DefaultKeyFile := "api_keys.txt"
  const DirectSavePrefix := "direct_search-"

  /** The TypeError of calling a two-parameter `execute` with three
      arguments. */
  function ArityError(className: string): string {
    className + ".execute() takes from 2 to 3 positional arguments but 4 were given"
  }

  /** `not self.api_key`. */
  predicate NoKey(apiKey: Option<string>) {
    apiKey.None? || apiKey.value == ""
  }

  /** The key `connect` uses: the stored one, or the one typed at the prompt
      when none is stored. */
  function ConnectKey(apiKey: Option<string>, typedKey: string): (key: string)
    ensures NoKey(apiKey) ==> key == typedKey
    ensures !NoKey(apiKey) ==> Some(key) == apiKey
  {
    if NoKey(apiKey) then typedKey else apiKey.value
  }

  /** The key file `autoconnect` reads: the argument, else
      `autoconnect:api_key_file`, else "api_keys.txt". */
  function KeyFilePath(config: Config, filePath: Option<string>): string {
    filePath.GetOr(config.keyFile.GetOr(DefaultKeyFile))
  }

  /** The threshold `autoconnect` applies: the argument, else
      `autoconnect:min_requests`, else 10. */
  function KeyThreshold(config: Config, minRequests: Option<int>): int {
    minRequests.GetOr(config.autoMinRequests.GetOr(DefaultMinRequests))
  }

  /** The key `autoconnect` adopts from what reading the key file gave. */
  function AutoconnectKey(read: FileRead, info: string -> InfoAnswer, threshold: int): Option<string> {
    if !read.FileText? then None
    else
      var keys := KeyLines(Split(read.text, '\n'));
      match FirstQualifying(keys, info, threshold)
      case None => None
      case Some(i) => Some(keys[i])
  }

  /** `autoconnect` adopts a key only from a readable file, only a stripped
      non-blank line of it, and only one whose credits reach the threshold;
      it adopts none only when no such line qualifies. */
  lemma AutoconnectKeyChoice(read: FileRead, info: string -> InfoAnswer, threshold: int, key: string)
    ensures AutoconnectKey(read, info, threshold) == Some(key) ==>
              && read.FileText?
              && key in KeyLines(Split(read.text, '\n'))
              && IsStripped(key)
              && Qualifies(info(key), threshold)
    ensures read.FileText? && AutoconnectKey(read, info, threshold).None? && key in KeyLines(Split(read.text, '\n')) ==>
              !Qualifies(info(key), threshold)
  {
    if read.FileText? {
      KeyLinesMembers(Split(read.text, '\n'), key);
    }
  }

  /** The key and the client after the guard `if not self.api and not
      self.connect()`: unchanged when a client exists, otherwise what
      `connect` leaves behind. */
  function ImplicitConnect(apiKey: Option<string>, api: Option<Client>, minRequests: int, world: World)
    : (Option<string>, Option<Client>)
  {
    if api.Some? then (apiKey, api)
    else
      var key := ConnectKey(apiKey, world.typedKey);
      var answer := world.info(key);
      (Some(key), if Qualifies(answer, minRequests) || answer.InfoFailed? then Some(Client(key)) else None)
  }

  /** The guard stops the command: there is no client and `connect` fails. */
  predicate ConnectFails(apiKey: Option<string>, api: Option<Client>, minRequests: int, world: World) {
    api.None? && !Qualifies(world.info(ConnectKey(apiKey, world.typedKey)), minRequests)
  }

  /** What `run_module` leads to. Each running module reports its own
      execution; a module whose `execute` takes two parameters fails with the
      TypeError of the three-argument call. */
  datatype RunOutcome =
    | SelectModuleFirst
    | NotConnected
    | ComfyUIRan(comfyui: Execution<ComfyUI.Instance>)
    | ExampleRan(example: Execution<EngExample.Device>)
    | DeviceSearchRan(devices: Execution<DeviceSearch.Device>)
    | ExecutionError(message: string)

  /** What `use_module` leads to: a refusal, or the module run it starts. */
  datatype UseOutcome = Refused(selection: Selection) | Used(run: RunOutcome)

  /** What `search_direct` leads to: no connection (it returns `None`), a
      failed search (it returns `[]`), or the matches with what was printed
      and saved. */
  datatype DirectOutcome =
    | DirectNotConnected
    | DirectFailed(message: string)
    | DirectDone(matches: seq<Record>, screen: DirectScreen, saved: Option<Saved<Record>>)

  /** `run` is what calling `execute` of a module of this kind with the
      client's search, the query and the result limit leads to. */
  ghost predicate Ran(run: RunOutcome, kind: ModuleKind, search: Remote, query: string, maxResults: int) {
    match kind
    case ComfyUIKind =>
      run.ComfyUIRan? && ComfyUI.Runs(run.comfyui, search, query, maxResults)
    case EngExampleKind =>
      run.ExampleRan? && run.example.query == query && EngExample.Runs(run.example, search, Some(query), maxResults)
    case VncKind =>
      && run.DeviceSearchRan? && (IsBlank(query) ==> run.devices.query == VncDisabledAuth.BaseQuery)
      && DeviceSearch.Runs(run.devices, VncDisabledAuth.BaseQuery, VncDisabledAuth.FilePrefix, search, query, maxResults)
    case FtpKind =>
      && run.DeviceSearchRan? && (IsBlank(query) ==> run.devices.query == FtpAnonymousLogin.BaseQuery)
      && DeviceSearch.Runs(run.devices, FtpAnonymousLogin.BaseQuery, FtpAnonymousLogin.FilePrefix, search, query, maxResults)
    case RuExampleKind => run == ExecutionError(ArityError(RuExample.ClassName))
    case EasyExampleKind => run == ExecutionError(ArityError(EasyExample.ClassName))
  }

  class DarkShodan {
    var apiKey: Option<string>
    var api: Option<Client>
    var modules: Dict.Entries<string, Plugin>
    var currentModule: Option<Plugin>
    var lastSearchResults: seq<Listed>
    var translations: Json
    var config: Config

    /** The registry has one entry per key; the listing is numbered from 1
        and shows registered modules; a selected module is registered. */
    ghost predicate Valid()
      reads this
    {
      && Dict.DistinctKeys(modules)
      && (forall i :: 0 <= i < |lastSearchResults| ==>
            && lastSearchResults[i].index == i + 1
            && Dict.Get<string, Plugin>(modules, lastSearchResults[i].key) == Some(lastSearchResults[i].plugin))
      && (currentModule.Some? ==> exists key :: Dict.Get<string, Plugin>(modules, key) == currentModule)
    }

    /** `default:min_requests`, 10 when absent. */
    function MinRequests(): int
      reads this
    {
      config.minRequests.GetOr(DefaultMinRequests)
    }

    /** `default:max_results`, 50 when absent. */
    function MaxResults(): int
      reads this
    {
      config.maxResults.GetOr(DefaultMaxResults)
    }

    /** `__init__`: the configuration and the translation table are what
        the configuration and language files held; the classes are those of
        the modules directory in load order. */
    constructor (config: Config, translations: Json, classes: seq<ModuleKind>)
      ensures this.config == config && this.translations == translations
      ensures apiKey.None? && api.None? && currentModule.None? && lastSearchResults == []
      ensures modules == Registered([], classes)
      ensures Valid()
    {
      this.apiKey := None;
      this.api := None;
      this.modules := [];
      this.currentModule := None;
      this.lastSearchResults := [];
      this.translations := translations;
      this.config := config;
      new;
      LoadModules(classes);
    }

    /** `load_modules`: registers one instance per class under its
        lower-cased class name, in load order. */
    method LoadModules(classes: seq<ModuleKind>)
      requires Dict.DistinctKeys(modules)
      modifies this
      ensures modules == Registered(old(modules), classes) && Dict.DistinctKeys(modules)
      ensures apiKey == old(apiKey) && api == old(api) && currentModule == old(currentModule)
      ensures lastSearchResults == old(lastSearchResults)
      ensures translations == old(translations) && config == old(config)
      ensures old(currentModule).None? && old(lastSearchResults) == [] ==> Valid()
    {
      var pairs := Assignments(classes);
      for i := 0 to |classes|
        invariant modules == Dict.PutAll<string, Plugin>(old(modules), pairs[..i])
        invariant Dict.DistinctKeys(modules)
        invariant apiKey == old(apiKey) && api == old(api) && currentModule == old(currentModule)
        invariant lastSearchResults == old(lastSearchResults)
        invariant translations == old(translations) && config == old(config)
      {
        assert pairs[..i + 1][..i] == pairs[..i];
        modules := Dict.Put<string, Plugin>(modules, RegistryKey(classes[i]), Instantiate(classes[i]));
        Dict.PutAllGet<string, Plugin>(old(modules), pairs[..i + 1], RegistryKey(classes[i]));
      }
      assert pairs[..|classes|] == pairs;
    }

    /** `t(key)` without format arguments: walks the table part by part. */
    method T(key: string) returns (r: Outcome<string>)
      ensures r == Translate(translations, key)
    {
      var parts := Split(key, '.');
      var value := translations;
      for i := 0 to |parts|
        invariant Walk(translations, parts) == Walk(value, parts[i..])
      {
        var next := Step(value, parts[i]);
        if next.Raised? {
          return Raised(next.message);
        }
        value := next.value;
      }
      if value.Str? {
        return Ok(value.s);
      }
      return Ok(key);
    }

    /** `connect`: prompts for a key when none is stored, creates a client
        for it and keeps the client only when the key has enough credits.
        When `info()` raises, the client stays although the call fails. */
    method Connect(world: World) returns (ok: bool)
      modifies this
      ensures apiKey == Some(ConnectKey(old(apiKey), world.typedKey))
      ensures ok <==> Qualifies(world.info(ConnectKey(old(apiKey), world.typedKey)), old(MinRequests()))
      ensures api == (if ok || world.info(ConnectKey(old(apiKey), world.typedKey)).InfoFailed?
                      then Some(Client(ConnectKey(old(apiKey), world.typedKey))) else None)
      ensures modules == old(modules) && currentModule == old(currentModule)
      ensures lastSearchResults == old(lastSearchResults)
      ensures translations == old(translations) && config == old(config)
    {
      if NoKey(apiKey) {
        apiKey := Some(world.typedKey);
      }
      var key := apiKey.value;
      api := Some(Client(key));
      var info := world.info(key);
      if info.InfoFailed? {
        return false;
      }
      var credits := info.credits.GetOr(0);
      if credits < MinRequests() {
        api := None;
        return false;
      }
      return true;
    }

    /** `autoconnect`: reads the key file and adopts the first key, in file
        order, whose credits reach the threshold; keys whose `info()` raises
        are skipped. Without a qualifying key nothing changes. */
    method Autoconnect(filePath: Option<string>, minRequests: Option<int>, world: World) returns (ok: bool)
      modifies this
      ensures var chosen := AutoconnectKey(world.readFile(KeyFilePath(old(config), filePath)), world.info,
                                           KeyThreshold(old(config), minRequests));
              && (ok <==> chosen.Some?)
              && (ok ==> apiKey == chosen && api == Some(Client(chosen.value)))
              && (!ok ==> apiKey == old(apiKey) && api == old(api))
      ensures modules == old(modules) && currentModule == old(currentModule)
      ensures lastSearchResults == old(lastSearchResults)
      ensures translations == old(translations) && config == old(config)
    {
      var threshold := KeyThreshold(config, minRequests);
      var read := world.readFile(KeyFilePath(config, filePath));
      if !read.FileText? {
        return false;
      }
      var keys := KeyLines(Split(read.text, '\n'));
      var found := TryKeys(keys, world.info, threshold);
      if found.None? {
        return false;
      }
      apiKey := Some(keys[found.value]);
      api := Some(Client(keys[found.value]));
      return true;
    }

    /** `search_modules`: lists the registered modules whose key or name
        contains the query, ignoring case, numbered from 1. */
    method SearchModules(query: string)
      requires Valid()
      modifies this
      ensures lastSearchResults == Listing(modules, query)
      ensures Valid()
      ensures apiKey == old(apiKey) && api == old(api) && modules == old(modules)
      ensures currentModule == old(currentModule)
      ensures translations == old(translations) && config == old(config)
    {
      ListingRegistered(modules, query);
      lastSearchResults := Listing(modules, query);
    }

    /** `run_module`: needs a selected module and a connection (connecting
        first when there is no client), then calls the module's `execute`
        with the client, the query and `default:max_results`. */
    method RunModule(query: string, world: World) returns (run: RunOutcome)
      requires Valid()
      modifies this
      ensures Valid()
      ensures old(currentModule).None? <==> run == SelectModuleFirst
      ensures old(currentModule).None? ==> api == old(api) && apiKey == old(apiKey)
      ensures old(currentModule).Some? ==>
                && (apiKey, api) == ImplicitConnect(old(apiKey), old(api), old(MinRequests()), world)
                && (run == NotConnected <==> ConnectFails(old(apiKey), old(api), old(MinRequests()), world))
                && (run != NotConnected ==>
                      api.Some? && Ran(run, old(currentModule).value.kind, world.search(api.value.key), query, MaxResults()))
      ensures modules == old(modules) && currentModule == old(currentModule)
      ensures lastSearchResults == old(lastSearchResults)
      ensures translations == old(translations) && config == old(config)
    {
      if currentModule.None? {
        return SelectModuleFirst;
      }
      if api.None? {
        var connected := Connect(world);
        if !connected {
          return NotConnected;
        }
      }
      var search := world.search(api.value.key);
      var maxResults := MaxResults();
      match currentModule.value.kind
      case ComfyUIKind =>
        var ex := ComfyUI.Execute(search, query, maxResults);
        run := ComfyUIRan(ex);
      case EngExampleKind =>
        var ex := EngExample.Execute(search, Some(query), maxResults);
        run := ExampleRan(ex);
      case VncKind =>
        var ex := VncDisabledAuth.Execute(search, query, maxResults);
        run := DeviceSearchRan(ex);
      case FtpKind =>
        var ex := FtpAnonymousLogin.Execute(search, query, maxResults);
        run := DeviceSearchRan(ex);
      case RuExampleKind =>
        run := ExecutionError(ArityError(RuExample.ClassName));
      case EasyExampleKind =>
        run := ExecutionError(ArityError(EasyExample.ClassName));
    }

    /** `use_module`: selects a module by listing number or registry key and
        runs it with an empty query; otherwise nothing changes. */
    method UseModule(identifier: string, world: World) returns (use: UseOutcome)
      requires Valid()
      modifies this
      ensures Valid()
      ensures var selection := Select(old(lastSearchResults), old(modules), identifier);
              if selection.Selected? then
                && currentModule == Some(selection.plugin) && use.Used?
                && (apiKey, api) == ImplicitConnect(old(apiKey), old(api), old(MinRequests()), world)
                && (use.run == NotConnected <==> ConnectFails(old(apiKey), old(api), old(MinRequests()), world))
                && (use.run != NotConnected ==>
                      api.Some? && Ran(use.run, selection.plugin.kind, world.search(api.value.key), "", MaxResults()))
              else
                use == Refused(selection) && currentModule == old(currentModule)
                && apiKey == old(apiKey) && api == old(api)
      ensures modules == old(modules) && lastSearchResults == old(lastSearchResults)
      ensures translations == old(translations) && config == old(config)
    {
      var selection := Select(lastSearchResults, modules, identifier);
      if !selection.Selected? {
        return Refused(selection);
      }
      if IsDigits(identifier) {
        var index := DigitsValue(identifier) - 1;
        assert Dict.Get<string, Plugin>(modules, lastSearchResults[index].key) == Some(selection.plugin);
      } else {
        assert Dict.Get<string, Plugin>(modules, identifier) == Some(selection.plugin);
      }
      currentModule := Some(selection.plugin);
      var run := RunModule("", world);
      return Used(run);
    }

    /** `search_direct`: searches with the query as given, prints the matches
        through the optional filter configuration, and returns and saves the
        matches themselves, unfiltered. */
    method SearchDirect(query: string, filterConfig: Option<FilterConfig>, world: World) returns (outcome: DirectOutcome)
      modifies this
      ensures (apiKey, api) == ImplicitConnect(old(apiKey), old(api), old(MinRequests()), world)
      ensures outcome.DirectNotConnected? <==> ConnectFails(old(apiKey), old(api), old(MinRequests()), world)
      ensures !outcome.DirectNotConnected? ==>
                && api.Some?
                && match world.search(api.value.key)(query, Some(old(MaxResults())))
                   case SearchFailed(e) => outcome == DirectFailed(e)
                   case Matches(ms) =>
                     && outcome.DirectDone?
                     && outcome.matches == ms
                     && DirectShows(outcome.screen, ms, filterConfig)
                     && outcome.saved == SaveOf(DirectSavePrefix, ms)
      ensures modules == old(modules) && currentModule == old(currentModule)
      ensures lastSearchResults == old(lastSearchResults)
      ensures translations == old(translations) && config == old(config)
    {
      if api.None? {
        var connected := Connect(world);
        if !connected {
          return DirectNotConnected;
        }
      }
      var answer := world.search(api.value.key)(query, Some(MaxResults()));
      if answer.SearchFailed? {
        return DirectFailed(answer.message);
      }
      var screen := DisplaySearchResults(answer.matches, filterConfig);
      outcome := DirectDone(answer.matches, screen, SaveOf(DirectSavePrefix, answer.matches));
    }
  }
}
