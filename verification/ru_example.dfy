/** The Russian example module: a documented template whose `execute` takes
    no result limit, keeps the original matches that carry an HTTP title and a
    well-known server banner, and returns printable lines headed by a summary;
    it also renders its own module-writing guide. */
module RuExample {
  import opened Base
  import opened Strings
  import opened Records
  import Dict

  const ClassName := "ExampleModule"
  const Name := "Example Module"
  const Description := "Демонстрационный модуль с документацией"
  const DefaultQuery := "port:80 http"

  /** Lower-case server banner fragments that make a device interesting. */
  const InterestingServers := ["apache", "nginx", "iis"]

  /** `query if query else "port:80 http"`. */
  function SearchQuery(query: string): (q: string)
    ensures query == "" ==> q == DefaultQuery
    ensures query != "" ==> q == query
  {
    if query != "" then query else DefaultQuery
  }

  /** `device.get('http', {})`. */
  function HttpData(d: Record): map<string, string> {
    if d.http.Some? then d.http.value else map[]
  }

  /** `_is_interesting_device`: the lower-cased `server` header (empty when
      missing) contains one of the three names. */
  predicate IsInterestingDevice(d: Record) {
    exists k :: 0 <= k < |InterestingServers| && Contains(Lower(GetOr(HttpData(d), "server", "")), InterestingServers[k])
  }

  /** The test of `_filter_results`: HTTP data with a title, and an
      interesting server. */
  predicate Keeps(d: Record) {
    d.http.Some? && "title" in d.http.value && IsInterestingDevice(d)
  }

  /** `_filter_results`: the original matches that pass the test, unchanged
      and in their order. */
  method FilterResults(devices: seq<Record>) returns (filtered: seq<Record>)
    ensures filtered == Filter(devices, Keeps)
  {
    filtered := [];
    for i := 0 to |devices|
      invariant filtered == Filter(devices[..i], Keeps)
    {
      assert devices[..i + 1] == devices[..i] + [devices[i]];
      if devices[i].http.Some? && "title" in devices[i].http.value {
        if IsInterestingDevice(devices[i]) {
          filtered := filtered + [devices[i]];
        }
      }
    }
    assert devices[..|devices|] == devices;
  }

  /** What the filter keeps: an order-preserving subsequence of the matches,
      holding exactly the matches with an HTTP title whose server banner
      contains "apache", "nginx" or "iis" in any letter case. */
  lemma FilteredDevices(devices: seq<Record>, d: Record)
    ensures IsSubsequence(Filter(devices, Keeps), devices)
    ensures d in Filter(devices, Keeps) <==>
              d in devices && d.http.Some? && "title" in d.http.value
              && exists k :: 0 <= k < |InterestingServers| && Contains(Lower(GetOr(d.http.value, "server", "")), InterestingServers[k])
  {
    FilterIsSubsequence(devices, Keeps);
    FilterMembers(devices, Keeps, d);
  }

  /** The server and title part of a line: present only when `http` is
      non-empty. */
  function ServerPart(d: Record): string {
    var http := HttpData(d);
    if |http| > 0 then " | Server: " + GetOr(http, "server", "Unknown") + " | Title: " + GetOr(http, "title", "No title")
    else ""
  }

  /** The location part of a line: present only when `location` is
      non-empty. */
  function LocationPart(d: Record): string {
    if |d.location| > 0 then " | Location: " + GetOr(d.location, "country_name", "Unknown") + ", " + GetOr(d.location, "city", "Unknown")
    else ""
  }

  /** One line of `_format_output`: "ip:port", then server and title when
      the HTTP data is non-empty, then country and city when the `location`
      sub-object is non-empty. `device['ip_str']` and `device['port']` raise
      KeyError when missing. */
  function FormatLine(d: Record): Outcome<string> {
    if d.ipStr.None? then Raised(KeyError("ip_str"))
    else if d.port.None? then Raised(KeyError("port"))
    else Ok(Address(d.ipStr.value, d.port.value) + ServerPart(d) + LocationPart(d))
  }

  /** A formatted line starts with the device's address; for a device the
      filter kept, the server and title come right after it, and the line
      ends there unless the device has a non-empty `location`. */
  lemma FormattedLine(d: Record)
    ensures FormatLine(d).Ok? <==> HasAddress(d)
    ensures FormatLine(d).Ok? ==> StartsWith(FormatLine(d).value, d.ipStr.value + ":" + IntToString(d.port.value))
    ensures FormatLine(d).Ok? && Keeps(d) && |d.location| == 0 ==>
              FormatLine(d).value == d.ipStr.value + ":" + IntToString(d.port.value)
                                     + " | Server: " + GetOr(d.http.value, "server", "Unknown")
                                     + " | Title: " + d.http.value["title"]
  {
    if HasAddress(d) {
      var a := Address(d.ipStr.value, d.port.value);
      assert FormatLine(d).value[..|a|] == a;
      if Keeps(d) && |d.location| == 0 {
        var http := d.http.value;
        var server := GetOr(http, "server", "Unknown");
        assert ServerPart(d) == " | Server: " + server + " | Title: " + http["title"];
        assert LocationPart(d) == "";
        JoinParts(d.ipStr.value + ":", IntToString(d.port.value), " | Server: " + server, " | Title: ", http["title"]);
      }
    }
  }

  /** The line of a kept device without location, regrouped. */
  lemma JoinParts(address: string, port: string, server: string, caption: string, title: string)
    ensures address + port + (server + caption + title) + "" == address + port + server + caption + title
  {
  }

  /** Right after the address of a formatted line comes " | Server: "
      exactly when the device's `http` is non-empty; after the server part
      comes " | Location: " exactly when its `location` is non-empty, and
      then the country and the city end the line. */
  lemma LineParts(d: Record)
    requires HasAddress(d)
    ensures var rest := FormatLine(d).value[|Address(d.ipStr.value, d.port.value)|..];
            && (StartsWith(rest, " | Server: ") <==> |HttpData(d)| > 0)
            && (StartsWith(rest[|ServerPart(d)|..], " | Location: ") <==> |d.location| > 0)
            && (|d.location| > 0 ==>
                  rest[|ServerPart(d)|..] == " | Location: " + GetOr(d.location, "country_name", "Unknown")
                                             + ", " + GetOr(d.location, "city", "Unknown"))
  {
    var a := Address(d.ipStr.value, d.port.value);
    var rest := FormatLine(d).value[|a|..];
    assert rest == ServerPart(d) + LocationPart(d);
    assert rest[|ServerPart(d)|..] == LocationPart(d);
    PartHeads(d);
  }

  /** Each part of a line begins with its own label exactly when the device
      has the data it shows. */
  lemma PartHeads(d: Record)
    ensures StartsWith(ServerPart(d) + LocationPart(d), " | Server: ") <==> |HttpData(d)| > 0
    ensures StartsWith(LocationPart(d), " | Location: ") <==> |d.location| > 0
  {
    var parts := ServerPart(d) + LocationPart(d);
    if |HttpData(d)| == 0 {
      if |d.location| > 0 {
        assert parts[3] == 'L';
      }
    } else {
      assert parts[..|" | Server: "|] == " | Server: ";
    }
    if |d.location| > 0 {
      assert LocationPart(d)[..|" | Location: "|] == " | Location: ";
    }
  }

  /** The first position whose device lacks an address. */
  ghost predicate FirstWithoutAddress(devices: seq<Record>, i: int) {
    && 0 <= i < |devices|
    && !HasAddress(devices[i])
    && forall j :: 0 <= j < i ==> HasAddress(devices[j])
  }

  /** `_format_output`: one line per device, in order, or the KeyError of the
      first device without `ip_str` or `port`. */
  method FormatOutput(devices: seq<Record>) returns (out: Outcome<seq<string>>)
    ensures out.Ok? <==> forall i :: 0 <= i < |devices| ==> HasAddress(devices[i])
    ensures out.Ok? ==> |out.value| == |devices|
                        && forall i :: 0 <= i < |devices| ==> FormatLine(devices[i]) == Ok(out.value[i])
    ensures out.Raised? ==> exists i :: FirstWithoutAddress(devices, i) && out.message == FormatLine(devices[i]).message
  {
    var output := [];
    for i := 0 to |devices|
      invariant |output| == i
      invariant forall j :: 0 <= j < i ==> HasAddress(devices[j]) && FormatLine(devices[j]) == Ok(output[j])
    {
      var line := FormatLine(devices[i]);
      if line.Raised? {
        assert FirstWithoutAddress(devices, i);
        return Raised(line.message);
      }
      output := output + [line.value];
    }
    return Ok(output);
  }

  /** The four lines `execute` inserts in front of the device lines. */
  function Header(searchQuery: string, found: nat): seq<string> {
    ["=== " + Name + " ===", "Запрос: " + searchQuery, "Найдено устройств: " + NatToString(found), Repeat('-', 50)]
  }

  /** `f"Ошибка выполнения: {e}"`. */
  function ErrorLine(message: string): string {
    "Ошибка выполнения: " + message
  }

  /** `execute(api, query)`: the search goes out without a limit; a failure
      anywhere yields the single error line; otherwise the four header lines
      (module name, query, number of kept devices, a rule of 50 dashes) come
      before one line per kept device. */
  method Execute(search: Remote, query: string) returns (output: seq<string>)
    ensures match search(SearchQuery(query), None)
      case SearchFailed(e) => output == [ErrorLine(e)]
      case Matches(ms) =>
        var kept := Filter(ms, Keeps);
        if forall i :: 0 <= i < |kept| ==> HasAddress(kept[i]) then
          && |output| == 4 + |kept|
          && output[..4] == Header(SearchQuery(query), |kept|)
          && forall i :: 0 <= i < |kept| ==> FormatLine(kept[i]) == Ok(output[4 + i])
        else
          exists i :: FirstWithoutAddress(kept, i) && output == [ErrorLine(FormatLine(kept[i]).message)]
  {
    var searchQuery := SearchQuery(query);
    var answer := search(searchQuery, None);
    if answer.SearchFailed? {
      return [ErrorLine(answer.message)];
    }
    var filtered := FilterResults(answer.matches);
    var lines := FormatOutput(filtered);
    if lines.Raised? {
      return [ErrorLine(lines.message)];
    }
    output := Header(searchQuery, |filtered|) + lines.value;
  }

  // ---------------------------------------------------------------------------
  // The module-writing guide

  /** A value of the guide: a sentence or a list of words. */
  datatype DocValue = Text(text: string) | Items(items: seq<string>)

  /** A section of the guide: named values, or a bare sentence. */
  datatype DocContent = Entries(entries: Dict.Entries<string, DocValue>) | Plain(text: string)

  /** The `documentation` attribute the constructor sets up. */
  const Documentation: Dict.Entries<string, DocContent> := [
    ("structure", Entries([
      ("class_name", Text("Должен наследоваться от object")),
      ("required_methods", Items(["__init__", "execute"])),
      ("required_attributes", Items(["name", "description"]))])),
    ("search_algorithm", Entries([
      ("query_construction", Text("Использовать shodan.search() с фильтрами")),
      ("common_filters", Items(["port", "country", "os", "product"])),
      ("result_processing", Text("Обработка результатов через цикл"))])),
    ("filter_system", Entries([
      ("optional", Text("Можно добавить методы фильтрации")),
      ("examples", Items(["по стране", "по порту", "по версии ПО"]))])),
    ("output_format", Entries([
      ("standard", Text("Вывод в формате список строк")),
      ("recommended", Text("IP:Port - Информация")),
      ("extended", Text("Дополнительные данные через |"))]))]

  /** The line for one named value; lists are joined with ", ". */
  function EntryLine(key: string, value: DocValue): string {
    match value
    case Items(words) => "  " + key + ": " + JoinWith(words, ", ")
    case Text(t) => "  " + key + ": " + t
  }

  /** The lines of one section. */
  function SectionLines(section: string, content: DocContent): (lines: seq<string>)
    ensures |lines| == 1 + (if content.Entries? then |content.entries| else 1)
  {
    ["\n--- " + Upper(section) + " ---"] +
    match content
    case Entries(es) => seq(|es|, i requires 0 <= i < |es| => EntryLine(es[i].0, es[i].1))
    case Plain(t) => ["  " + t]
  }

  /** The lines of the given sections, in order. */
  function DocLines(doc: Dict.Entries<string, DocContent>): seq<string>
    decreases |doc|
  {
    if doc == [] then [] else DocLines(doc[..|doc| - 1]) + SectionLines(doc[|doc| - 1].0, doc[|doc| - 1].1)
  }

  /** The number of lines a guide renders to. */
  function LineCount(doc: Dict.Entries<string, DocContent>): nat
    decreases |doc|
  {
    if doc == [] then 0
    else
      var content := doc[|doc| - 1].1;
      LineCount(doc[..|doc| - 1]) + 1 + (if content.Entries? then |content.entries| else 1)
  }

  /** Each section adds its heading and one line per value. */
  lemma {:induction false} DocLinesCount(doc: Dict.Entries<string, DocContent>)
    ensures |DocLines(doc)| == LineCount(doc)
    decreases |doc|
  {
    if doc != [] {
      DocLinesCount(doc[..|doc| - 1]);
    }
  }

  /** `show_documentation`: the title line, then every section's heading and
      values in insertion order. */
  method ShowDocumentation(doc: Dict.Entries<string, DocContent>) returns (docs: seq<string>)
    ensures docs == ["=== ДОКУМЕНТАЦИЯ ПО СОЗДАНИЮ МОДУЛЕЙ ==="] + DocLines(doc)
    ensures |docs| == 1 + LineCount(doc)
  {
    docs := ["=== ДОКУМЕНТАЦИЯ ПО СОЗДАНИЮ МОДУЛЕЙ ==="];
    for s := 0 to |doc|
      invariant docs == ["=== ДОКУМЕНТАЦИЯ ПО СОЗДАНИЮ МОДУЛЕЙ ==="] + DocLines(doc[..s])
    {
      var (section, content) := doc[s];
      assert doc[..s + 1] == doc[..s] + [doc[s]];
      docs := docs + ["\n--- " + Upper(section) + " ---"];
      match content {
        case Entries(es) =>
          for k := 0 to |es|
            invariant docs == ["=== ДОКУМЕНТАЦИЯ ПО СОЗДАНИЮ МОДУЛЕЙ ==="] + DocLines(doc[..s])
                              + ["\n--- " + Upper(section) + " ---"]
                              + seq(k, i requires 0 <= i < k => EntryLine(es[i].0, es[i].1))
          {
            docs := docs + [EntryLine(es[k].0, es[k].1)];
          }
        case Plain(t) =>
          docs := docs + ["  " + t];
      }
    }
    assert doc[..|doc|] == doc;
    DocLinesCount(doc);
  }

  /** The module's own guide renders to sixteen lines: the title, four
      section headings and eleven values. */
  lemma DocumentationLength()
    ensures 1 + LineCount(Documentation) == 16
  {
    var d := Documentation;
    assert LineCount(d[..1]) == 4 by { assert d[..1][..0] == []; }
    assert LineCount(d[..2]) == 8 by { assert d[..2][..1] == d[..1]; }
    assert LineCount(d[..3]) == 11 by { assert d[..3][..2] == d[..2]; }
    assert d[..4] == d;
  }
}
