# Dark Shodan, modelled in Dafny

Dark Shodan is a console front end to the Shodan search service. The host
class `DarkShodan` (`dark_shodan.py`) does the following:

- keeps an API key and a client;
- keeps a registry of search modules, keyed by lower-cased class name;
- remembers the selected module and the numbered listing of the last module
  search;
- connects by a typed key (`connect`) or by the first suitable key of a key
  file (`autoconnect`);
- runs the selected module (`run_module`);
- runs a raw search (`search_direct`), whose display can be narrowed by a JSON
  filter configuration (`_apply_filter`).

Each module under `modules/` has the same pipeline: compose a query, search,
filter or project the matches, print them, and sometimes save them. The
modules are `comfyui_module`, `eng_example`, `ru_example`, `vnc_disabledAuth`,
`ftp_anonymouse_login` and `easy_example`.

This project models that logic with the remote service and the file system as
inputs. The model is organised as follows:

- **The host** is a class with the same fields. Its commands are methods with
  `modifies this`. Each method states which fields it leaves unchanged and
  what the key and client are afterwards. It states its outcome in terms of
  the selection rule, the connection rule and each module's `Runs`
  predicate, and lemmas about those carry the properties.
- **`_apply_filter`, the module filters, the formatters and the country
  tallies** are loops proved against functions on sequences.
- **Pure pieces** are functions with lemmas. These are query composition,
  truncation, the validity predicates, the registry rule, `use_module`'s
  selection rule and the translation lookup.

The VNC and FTP modules are the same code with different constants. They share
one model, `DeviceSearch`, and each module supplies its base query and file
prefix.

Two behaviours of the code as written are modelled as they are:

- **The three-argument call.** The host calls every module as
  `execute(api, query, max_results)` (dark_shodan.py:163). The Russian and
  easy example modules accept only `(api, query)`, so for them the call raises
  a TypeError. `run_module` catches it and prints it (`Host.DarkShodan.RunModule`).
- **The registry collision.** `eng_example.py` and `ru_example.py` both
  define `ExampleModule`. With the modules directory read in alphabetical
  order, the Russian class is registered last under `examplemodule` and
  replaces the English one (`Registry.ExampleModulesCollide`).

## Model

| member | source | states |
|---|---|---|
| `Dict.PutSpec` | dark_shodan.py:54 | Dictionary assignment: it stores the value under its key, leaves every other key's value alone and keeps the keys distinct. An existing key keeps its place; a new key goes at the end. |
| `Dict.PutAllGet` | dark_shodan.py:51-54 | After a run of assignments, a key holds the value of its last assignment, or its old value if it was never assigned. |
| `Registry.LastRegisteredWins` | dark_shodan.py:53-54 | The last class registered under a key is the one the registry holds, and the keys stay distinct. |
| `Registry.UnregisteredKeyKept` | dark_shodan.py:51-54 | A key that no loaded class maps to keeps its previous entry. |
| `Registry.ShippedKeys` | dark_shodan.py:54 | The registry keys of the six shipped classes. Both example modules get `examplemodule`. |
| `Registry.RegisterNew` | dark_shodan.py:54 | Registering a key that is not present appends its entry. |
| `Registry.RegisterAgain` | dark_shodan.py:54 | Registering a key that is already present replaces its entry in place. |
| `Registry.ShippedAssignments` | dark_shodan.py:44-54 | In alphabetical file order, the six shipped classes assign these keys, with `examplemodule` assigned third and fifth. |
| `Registry.SixWithOneRepeat` | dark_shodan.py:54 | Six assignments whose fifth repeats the third key, with all other keys distinct, leave five entries, and the fifth value sits in the third place. |
| `Registry.ExampleModulesCollide` | dark_shodan.py:44-54 | The six shipped classes give five registry entries, in first-assignment order. `examplemodule` holds the Russian example module. |
| `Registry.ListingMembers` | dark_shodan.py:123 | An entry is listed iff it is in the registry and the lower-cased query occurs in its lower-cased key or module name. The listing is an order-preserving subsequence of the registry. |
| `Registry.ListingRegistered` | dark_shodan.py:127-129 | Every listed key maps in the registry to the listed module. |
| `Registry.EmptyQueryListsAll` | dark_shodan.py:123 | An empty query lists every registered module. |
| `Registry.SelectByNumber` | dark_shodan.py:138-146 | A digit identifier `n` selects iff `1 <= n <= len(last_search_results)`, and then selects the `n`-th listed module. |
| `Registry.SelectByName` | dark_shodan.py:134-153 | A non-digit identifier selects iff the listing is non-empty and the identifier is a registry key, and then selects that key's module. |
| `Registry.PrintedNumberSelects` | dark_shodan.py:127-141 | Typing back the number printed in front of a listed module selects that module. |
| `Strings.JoinSplit` | dark_shodan.py:36 | `str.split(sep)` loses nothing: joining the pieces with the separator gives back the string. |
| `Strings.SplitJoin` | dark_shodan.py:36 | Splitting a join of separator-free parts gives the parts back. |
| `Strings.DigitsRoundTrip` | dark_shodan.py:139 | `int()` of the decimal text of a number is that number. |
| `Translations.WalkEmpty` | dark_shodan.py:36-37 | Walking any path from the empty object stays at the empty object and never raises. |
| `Translations.MissingPartGivesKey` | dark_shodan.py:37 | Once a part is missing, the walk ends at the empty object, whatever the rest of the path. |
| `Translations.EmptyTable` | dark_shodan.py:34-40 | With no translations loaded, every key translates to itself. |
| `Translations.UnknownSection` | dark_shodan.py:34-40 | A key whose first part is absent from the table translates to itself. |
| `Translations.FoundAtPath` | dark_shodan.py:34-40 | The string stored at a path of dot-free parts is the translation of the dot-joined key. |
| `Translations.SectionLookup` | dark_shodan.py:34-40 | A two-part key looked up in an object table raises iff the table has the key's section and that section is not an object. |
| `Host.DarkShodan.T` | dark_shodan.py:34-40 | The lookup loop returns exactly `Translate(translations, key)`: the string at the full path, otherwise the key, or the AttributeError of stepping through a non-object. |
| `Host.DarkShodan.constructor` | dark_shodan.py:11-23 | Starts with no key, no client, no selected module and an empty listing. The registry is the given classes registered in order, and the state invariant holds. |
| `Host.DarkShodan.LoadModules` | dark_shodan.py:42-56 | The registration loop leaves `Registered(old modules, classes)` with distinct keys and changes no other field. |
| `Host.DarkShodan.Connect` | dark_shodan.py:58-75 | The key used is stored. `ok` iff `info()` answers with `query_credits` (default 0) at least `default:min_requests` (default 10). Then the client is kept. The low-quota branch clears it, and a raising `info()` leaves it set. Nothing else changes. |
| `Connection.StripEnds` | dark_shodan.py:87 | A stripped line that is not empty has no whitespace at either end. |
| `Connection.KeyLinesMembers` | dark_shodan.py:87 | The candidate keys are the non-empty stripped lines, in file order. A string is a candidate iff it is non-empty and some line strips to it. |
| `Connection.FirstQualifying` | dark_shodan.py:89-99 | The result is the index of a key that qualifies, with no earlier key qualifying, or None when no key qualifies. |
| `Connection.FirstQualifyingAt` | dark_shodan.py:89-99 | A qualifying key preceded only by non-qualifying keys is the one chosen. |
| `Connection.TryKeys` | dark_shodan.py:89-103 | The key loop, including skipping keys whose `info()` raises, returns `FirstQualifying`. |
| `Connection.FirstQualifyingPrefix` | dark_shodan.py:89-99 | Keys after the chosen one are never consulted: appending keys does not change a choice already made. |
| `Host.AutoconnectKeyChoice` | dark_shodan.py:77-106 | An adopted key comes from a readable file, is one of its stripped non-blank lines, has no outer whitespace and qualifies. When none is adopted from a readable file, no candidate qualifies. |
| `Host.DarkShodan.Autoconnect` | dark_shodan.py:77-106 | The path defaults to `autoconnect:api_key_file`, then "api_keys.txt". The threshold defaults to `autoconnect:min_requests`, then 10. `ok` iff a key is adopted; then key and client are that key's. Otherwise key and client are unchanged. Nothing else changes. |
| `Host.DarkShodan.SearchModules` | dark_shodan.py:122-132 | `last_search_results` becomes the numbered listing of matches, which is empty when nothing matches. The state invariant is kept and nothing else changes. |
| `Host.DarkShodan.RunModule` | dark_shodan.py:155-169 | Without a selected module, nothing runs and the connection is untouched. Otherwise the key and client afterwards are those of `ImplicitConnect`: unchanged when a client exists, else what `connect` leaves, which includes a client when `info()` raised. It reports "not connected" iff there was no client and `connect` failed (`ConnectFails`). In every other case a client exists and the outcome is `Ran` for the selected module's kind: that module's `Runs` predicate with the client's search, the query and `default:max_results` (default 50). For the two-parameter modules it is the TypeError of the three-argument call. |
| `Host.DarkShodan.UseModule` | dark_shodan.py:134-153 | When `Select` selects a module, that module becomes current and is run with the empty query. The key and client afterwards are those of `ImplicitConnect`. The run is "not connected" iff `ConnectFails`, and otherwise it is `Ran` for the selected module with query "". When nothing is selected, nothing changes and the refusal is reported. |
| `Host.DarkShodan.SearchDirect` | dark_shodan.py:171-197 | The key and client afterwards are those of `ImplicitConnect`. It reports "not connected" iff there was no client and `connect` failed (`ConnectFails`). Otherwise a client exists. On a search answer it returns and saves the unfiltered matches and displays them through the filter configuration. A failed search returns `[]` (`DirectFailed`). |
| `DirectFilter.ApplyFilter` | dark_shodan.py:241-272 | A falsy configuration returns the input unchanged. Otherwise the loop returns `Filter(results, Keep(filters))`. |
| `DirectFilter.FilteredIsSubsequence` | dark_shodan.py:243-272 | The filtered list is an order-preserving subsequence of the input. A configuration without `filters` keeps every match. |
| `DirectFilter.OrgRule` | dark_shodan.py:249-252 | A match with a non-empty org is dropped if some `exclude_orgs` entry occurs in it, ignoring case. An empty or missing org never fails this check. |
| `DirectFilter.CountryRule` | dark_shodan.py:254-261 | With a non-empty country, a match is dropped if it is outside a non-empty `include_countries` or inside a non-empty `exclude_countries`, by exact match. An empty country never fails this check. |
| `DirectFilter.PortRule` | dark_shodan.py:263-268 | A kept match satisfies `min_port <= port <= max_port` (defaults 1 and 65535, with a missing port read as 0). Under the default lower bound, a match without a port is dropped. |
| `DirectFilter.Prefix` | dark_shodan.py:231-234 | `s[:n]` is a prefix of `s` of length at most `n`, and it is `s` itself when `s` is short enough. |
| `DirectFilter.DisplaySearchResults` | dark_shodan.py:212-239 | An empty list prints "no results". A filter that drops everything prints "no results after filtering". Otherwise it prints one row per kept match, in order. |
| `PluginKit.ComposedQuery` | modules/comfyui_module.py:35 | For a base without outer whitespace, an empty or blank fragment gives exactly the base. Any other fragment gives base + " " + the fragment right-stripped. |
| `PluginKit.Truncate` | modules/comfyui_module.py:128-130 | A string within the budget is unchanged. Otherwise the result is its first `budget` characters plus "...", so the length is at most budget + 3. |
| `PluginKit.TruncateIdempotent` | modules/comfyui_module.py:128-130 | Truncating a truncated cell changes nothing. |
| `PluginKit.CountryOfLocation` | modules/comfyui_module.py:145 | The country key of a "country/city" location is the country, provided the country holds no '/'. |
| `PluginKit.TallyStep` | modules/comfyui_module.py:146 | One `countries[c] = countries.get(c, 0) + 1` turns the tally of some keys into the tally of those keys plus `c`. |
| `PluginKit.TallyStepEntries` | modules/comfyui_module.py:146 | That update gives `c` one more occurrence, leaves the other counts alone and keeps the keys distinct. |
| `PluginKit.TallyStepTotal` | modules/comfyui_module.py:146 | That update raises the sum of the counts by one. |
| `PluginKit.TotalPut` | modules/comfyui_module.py:146 | Assigning a count changes the sum by the difference of the new and old counts. |
| `PluginKit.TotalUpdate` | modules/comfyui_module.py:146 | Replacing one entry changes the sum by the difference of its counts. |
| `PluginKit.CountInAppend` | modules/comfyui_module.py:144-146 | One more key raises its own count by one and no other count. |
| `PluginKit.TallyCountries` | modules/comfyui_module.py:143-146 | The loop builds the tally of the country keys: one entry per country that occurs, in order of first occurrence, holding its number of occurrences, with the counts summing to the number of results. |
| `PluginKit.TallyEntries` | modules/comfyui_module.py:143-148 | Every tally entry holds the positive number of occurrences of its key. |
| `PluginKit.Summarize` | modules/comfyui_module.py:137-148 | The statistics give the first and last address and the country tally. |
| `ComfyUI.FinalQuery` | modules/comfyui_module.py:33-35 | For the ComfyUI base query, an empty or blank fragment gives the base alone. Any other fragment gives base + " " + the fragment right-stripped. |
| `ComfyUI.KeptIsFilter` | modules/comfyui_module.py:74-96 | The kept instances are, position by position, the projections of the matches that the order-preserving filter keeps. |
| `ComfyUI.KeptMembers` | modules/comfyui_module.py:93-111 | An instance is kept iff it is the projection of a kept match. Its lower-cased title then contains "comfyui" or "comfy ui", and its lower-cased org contains none of amazon, aws, google, microsoft, cloudflare. |
| `ComfyUI.FilterResults` | modules/comfyui_module.py:74-96 | It returns the kept instances in order, or the KeyError of the first match that has `http` but no `ip_str` or `port`. |
| `ComfyUI.DisplayResults` | modules/comfyui_module.py:113-148 | An empty list prints "nothing found". Otherwise it prints one row per instance (address; org and location cut at 15; title cut at 30) and the statistics. |
| `ComfyUI.Execute` | modules/comfyui_module.py:20-53 | Sends the composed query with the limit. A failing search or projection returns `[]`, prints the error and saves nothing. Otherwise it returns the kept instances, shows them and saves them when there are any. |
| `DeviceSearch.ProjectedDevice` | modules/vnc_disabledAuth.py:29-40 | A match projects iff it has `ip_str` and `port`, and the device keeps that address. A missing key raises that key's KeyError. The location's country key is the match's country. |
| `DeviceSearch.FilterResults` | modules/vnc_disabledAuth.py:29-40 | A total projection: the output has the input's length and order. Otherwise it returns the KeyError of the first match without an address. |
| `DeviceSearch.DisplayResults` | modules/vnc_disabledAuth.py:42-70 | An empty list prints "nothing found". Otherwise it prints one row per device (org and location cut at 15 plus "...") and the statistics with the country tally. |
| `DeviceSearch.ShownTable` | modules/vnc_disabledAuth.py:52-69 | Each row starts with the device's address and its cells are at most 18 characters. The tally counts sum to the number of devices. |
| `DeviceSearch.Execute` | modules/vnc_disabledAuth.py:13-27 | A failing search or a match without an address gives `[]`, prints the error and saves nothing. Otherwise it returns one device per match, displays them and saves a non-empty list under the prefix. |
| `VncDisabledAuth.FinalQuery` | modules/vnc_disabledAuth.py:14-15 | An empty or blank fragment gives exactly `"authentication disabled" port:5900,5901`. Any other fragment gives base + " " + the fragment right-stripped. |
| `VncDisabledAuth.Execute` | modules/vnc_disabledAuth.py:13-86 | The VNC module runs the shared device pipeline with its own base query and the prefix "vnc_noauth-". |
| `FtpAnonymousLogin.FinalQuery` | modules/ftp_anonymouse_login.py:14-15 | An empty or blank fragment gives exactly `"220" "230 Login successful." port:21`. Any other fragment gives base + " " + the fragment right-stripped. |
| `FtpAnonymousLogin.Execute` | modules/ftp_anonymouse_login.py:13-86 | The FTP module runs the shared device pipeline with its own base query and file prefix. |
| `EngExample.KeptIsFilter` | modules/eng_example.py:57-81 | The kept devices are, position by position, the projections of the matches that the order-preserving filter keeps. |
| `EngExample.KeptMembers` | modules/eng_example.py:65-79 | A device is kept iff it is the projection of a kept match. Its server then contains Apache, nginx, IIS or lighttpd, case-sensitively. |
| `EngExample.FilterResults` | modules/eng_example.py:57-81 | It returns the kept devices (`ip`, `port`, `server`, `title`, `location`) in order, or the KeyError of the first match that has `http` but no address. |
| `EngExample.DisplayResults` | modules/eng_example.py:83-105 | An empty list prints "nothing found". Otherwise it prints one row per device (server cut at 15, title cut at 25) and no statistics. |
| `EngExample.Execute` | modules/eng_example.py:25-55 | It searches with the query as given and the limit. On failure it returns `[]`. Otherwise it returns and shows the kept devices. It never saves. |
| `RuExample.FilterResults` | modules/ru_example.py:76-95 | The loop returns exactly the original matches that pass the test, in order. |
| `RuExample.FilteredDevices` | modules/ru_example.py:86-118 | The result is an order-preserving subsequence. A match is kept iff it has `http` with a `title` and its lower-cased server (default "") contains apache, nginx or iis. |
| `RuExample.FormattedLine` | modules/ru_example.py:132-153 | A line exists iff the device has `ip_str` and `port`, and it starts with "ip:port". For a kept device without `location`, it is exactly "ip:port \| Server: … \| Title: …". |
| `RuExample.LineParts` | modules/ru_example.py:141-153 | Right after the address comes " \| Server: " iff `http` is non-empty. After the server part comes " \| Location: " iff `location` is non-empty, and the country and city end the line, with "Unknown" for a missing one. |
| `RuExample.FormatOutput` | modules/ru_example.py:120-155 | One line per device, in order, or the KeyError of the first device without an address. |
| `RuExample.Execute` | modules/ru_example.py:40-74 | It searches without a limit. On success it returns the four header lines (name, query, kept count, 50 dashes) followed by one line per kept device. Any failure gives the single "Ошибка выполнения: …" line. |
| `RuExample.SectionLines` | modules/ru_example.py:165-174 | A section renders to its heading plus one line per value, or one line for a bare sentence. |
| `RuExample.DocLinesCount` | modules/ru_example.py:164-174 | The number of rendered lines is the sum, over the sections, of one heading plus their values. |
| `RuExample.ShowDocumentation` | modules/ru_example.py:157-176 | It returns the title line and then every section's heading and values, in insertion order. |
| `RuExample.DocumentationLength` | modules/ru_example.py:18-38 | The module's own guide renders to sixteen lines. |
| `EasyExample.FormattedLine` | modules/easy_example.py:24 | A line exists iff the device has an address. The line is "ip:port". When the IP contains no ':', its part before the first ':' is the IP. |
| `EasyExample.FormatOutput` | modules/easy_example.py:21-26 | Exactly one "ip:port" line per device, in order, or the KeyError of the first device without an address. |
| `EasyExample.Execute` | modules/easy_example.py:8-19 | As written, it always returns one line starting "Error: ". That line is the search's error, or the AttributeError for the missing `_filter_results`. |
| `EasyExample.ExecuteKeepingAll` | modules/easy_example.py:8-26 | With a filter that keeps everything, it returns the four header lines (with the query as typed) and one "ip:port" line per match, or a single error line. |

## Left out

- Console output is not modelled: colours, padding widths, banner, help text and every `print`. Screens are modelled as the cells they print.
- Files are not written: the timestamped file name, `os.makedirs`, `json.dump`, and errors while writing. A save is modelled as the prefix and the list written.
- `load_config`, `load_language`, `set_language` and `_load_filter_config` read JSON files. The configuration, the translation table and the filter configuration are parameters instead.
- `show_banner`, `show_help`, the command loop `start` and `input()` are interactive plumbing. The key typed at the prompt is a field of `World`.
- `load_modules`' directory listing, `importlib` loading and `dir()` introspection are not modelled. The classes are a parameter in load order. `os.listdir` order depends on the platform, and `Registry.ExampleModulesCollide` assumes alphabetical order.
- The Shodan service is an oracle: `World.info` and `World.search` give its answers for a key. The network is not modelled.
- `Host.DarkShodan.T`: formatting with arguments (`str.format(*args)`) is not modelled. The lookup without arguments is.
- `run_module` has a branch that prints a string result. No shipped module returns a string, so the branch is unreachable and not modelled.
- `MODULE_INFO` and the other module-level documentation strings are text, not logic.
- Letter case, whitespace and digits are ASCII only. Python's Unicode `lower`, `upper`, `strip` and `isdigit` are not modelled beyond ASCII.
- A JSON filter configuration with wrongly typed values (a string where a list is expected, and similar) is not modelled.
- Ports are unbounded integers. The source does not restrict them either.
- A JSON `null` is not modelled. A field whose value is `null` is modelled as a missing field, so the model uses the default where the code would fail or print "None". This affects a null `http.title` (modules/comfyui_module.py:102), a null `server` (modules/eng_example.py:78, modules/ru_example.py:115), a null `org` (modules/vnc_disabledAuth.py:54, dark_shodan.py:231) and a null `city` (modules/ru_example.py:150).
- `SearchAnswer` does not tell a search that raised from an answer without a `matches` key. Both are `SearchFailed` with the exception's message. In `EasyExample.Execute` the code evaluates `self._filter_results` before `results['matches']` (modules/easy_example.py:11), so on an answer without `matches` the code reports the missing attribute while the model reports the KeyError for 'matches'.
- Connect (`Host.DarkShodan.Connect`): the contract assumes that every message lookup `t` succeeds. A table whose `success` section is not an object makes `t` raise at dark_shodan.py:70. The `except` at dark_shodan.py:73-75 then returns False with the client kept, where the model reports success. A table whose `errors` section is not an object makes the messages at dark_shodan.py:67 and :74 raise out of the method. `Translations.SectionLookup` says which tables raise.
- Autoconnect (`Host.DarkShodan.Autoconnect`): the contract assumes that every message lookup `t` succeeds. A table whose `errors` section is not an object makes the method raise instead of returning. The missing-file message at dark_shodan.py:83 raises directly. The messages inside the `try` (dark_shodan.py:88, :94, :101) raise into the `except` branches, whose own messages (dark_shodan.py:101, :105) raise again. The model returns the outcome as if the lookups succeeded.
- SearchModules (`Host.DarkShodan.SearchModules`): the contract assumes that the message lookups succeed. A table whose `search` or `errors` section is not an object raises at dark_shodan.py:125 or :131 before `last_search_results` is reset, so the listing stays as it was. The model always stores the new listing.
- UseModule (`Host.DarkShodan.UseModule`): the contract assumes that the message lookups succeed. The lookup of `errors.module_used` at dark_shodan.py:143 and :150 runs after `current_module` is set and before `run_module`. If it raises, the module is selected but not run, while the model runs it.
- RunModule (`Host.DarkShodan.RunModule`): the contract assumes that the message lookups succeed, both its own at dark_shodan.py:157, :165 and :169 and those of `connect`. A raise at :157, or at :165 followed by :169, escapes the method. A raise inside `connect` turns a qualifying key into a failed connect.
- SearchDirect (`Host.DarkShodan.SearchDirect`): the contract assumes that the message lookups succeed. A table whose `search` section is not an object makes dark_shodan.py:180 raise inside the `try`, so the code returns `[]` without searching (dark_shodan.py:195-197), while the model searches.
- Files are read in text mode, so a lone '\r' also ends a line. `FileText` is the text after newline translation, and translating '\r' and "\r\n" is not modelled.

## Findings

| source | as written | input that shows it | evidently intended | confidence | as-written member | corrected member |
|---|---|---|---|---|---|---|
| modules/easy_example.py:11 | `execute` calls `self._filter_results`, which the class does not define, so every search that succeeds ends in an AttributeError | any query whose search answers, e.g. an empty match list | `execute` returns the header lines and one "ip:port" line per match | high (not executed) | `EasyExample.Execute` | `EasyExample.ExecuteKeepingAll` |
