/** The search-and-report pipeline that the VNC and FTP modules share line
    for line: compose the query, project every match onto a six-field device
    record, print a table with statistics, save a non-empty list, and turn any
    exception into an empty result. The two modules differ only in their
    constants. */
module DeviceSearch {
  import opened Base
  import opened Strings
  import opened Records
  import opened PluginKit

  /** The record `_filter_results` builds for each match. */
  datatype Device = Device(ip: string, port: int, org: string, location: string, hostnames: seq<string>, timestamp: string)

  /** The dictionary literal of `_filter_results`: `match['ip_str']` is read
      first, then `match['port']`; either missing raises KeyError. */
  function ProjectDevice(m: Record): Outcome<Device> {
    if m.ipStr.None? then Raised(KeyError("ip_str"))
    else if m.port.None? then Raised(KeyError("port"))
    else Ok(Device(m.ipStr.value, m.port.value, m.org.GetOr("Unknown"), TopLevelLocation(m),
                   m.hostnames, m.timestamp.GetOr("Unknown")))
  }

  /** A projected device keeps the address of its match, and its location
      cell is keyed by the match's country whenever that name holds no '/'. */
  lemma ProjectedDevice(m: Record)
    ensures ProjectDevice(m).Ok? <==> HasAddress(m)
    ensures ProjectDevice(m).Ok? ==> ProjectDevice(m).value.ip == m.ipStr.value && ProjectDevice(m).value.port == m.port.value
    ensures ProjectDevice(m).Raised? ==> ProjectDevice(m).message == (if m.ipStr.None? then "'ip_str'" else "'port'")
    ensures ProjectDevice(m).Ok? && '/' !in m.countryName.GetOr("Unknown") ==>
              Country(ProjectDevice(m).value.location) == m.countryName.GetOr("Unknown")
  {
    if '/' !in m.countryName.GetOr("Unknown") {
      CountryOfLocation(m.countryName.GetOr("Unknown"), m.city.GetOr("Unknown"));
    }
  }

  /** The first position whose match lacks an address, if any. */
  ghost predicate FirstWithoutAddress(matches: seq<Record>, i: int) {
    && 0 <= i < |matches|
    && !HasAddress(matches[i])
    && forall j :: 0 <= j < i ==> HasAddress(matches[j])
  }

  /** `_filter_results`: every match becomes a device, in order (nothing is
      dropped despite the name); the first match without `ip_str` or `port`
      aborts the loop with that key's KeyError. */
  method FilterResults(matches: seq<Record>) returns (out: Outcome<seq<Device>>)
    ensures out.Ok? <==> forall i :: 0 <= i < |matches| ==> HasAddress(matches[i])
    ensures out.Ok? ==> |out.value| == |matches|
                        && forall i :: 0 <= i < |matches| ==> ProjectDevice(matches[i]) == Ok(out.value[i])
    ensures out.Raised? ==> exists i :: FirstWithoutAddress(matches, i) && out.message == ProjectDevice(matches[i]).message
  {
    var filtered := [];
    for i := 0 to |matches|
      invariant |filtered| == i
      invariant forall j :: 0 <= j < i ==> HasAddress(matches[j]) && ProjectDevice(matches[j]) == Ok(filtered[j])
    {
      var d := ProjectDevice(matches[i]);
      if d.Raised? {
        assert FirstWithoutAddress(matches, i);
        return Raised(d.message);
      }
      filtered := filtered + [d.value];
    }
    return Ok(filtered);
  }

  /** The cells of one table row: the address, then the organisation and the
      location cut to 15 characters plus "...". */
  function Row(d: Device): seq<string> {
    [Address(d.ip, d.port), Truncate(d.org, 15), Truncate(d.location, 15)]
  }

  function Addresses(devices: seq<Device>): (r: seq<string>)
    ensures |r| == |devices| && forall i :: 0 <= i < |devices| ==> r[i] == Address(devices[i].ip, devices[i].port)
  {
    seq(|devices|, i requires 0 <= i < |devices| => Address(devices[i].ip, devices[i].port))
  }

  function Locations(devices: seq<Device>): (r: seq<string>)
    ensures |r| == |devices| && forall i :: 0 <= i < |devices| ==> r[i] == devices[i].location
  {
    seq(|devices|, i requires 0 <= i < |devices| => devices[i].location)
  }

  /** `screen` is what `_display_results` prints for these devices. */
  ghost predicate Shows(screen: Screen, devices: seq<Device>) {
    && (screen.NothingFound? <==> devices == [])
    && (screen.Table? ==>
          && |screen.rows| == |devices|
          && (forall i :: 0 <= i < |devices| ==> screen.rows[i] == Row(devices[i]))
          && screen.stats.Some? && Summarizes(screen.stats.value, Addresses(devices), Locations(devices)))
  }

  /** `_display_results`. */
  method DisplayResults(devices: seq<Device>) returns (screen: Screen)
    ensures Shows(screen, devices)
  {
    if devices == [] {
      return NothingFound;
    }
    var rows := [];
    for i := 0 to |devices|
      invariant |rows| == i && forall j :: 0 <= j < i ==> rows[j] == Row(devices[j])
    {
      rows := rows + [Row(devices[i])];
    }
    var stats := Summarize(Addresses(devices), Locations(devices));
    screen := Table(rows, Some(stats));
  }

  /** Every printed row is the device's address followed by cells of at most
      18 characters, and the statistics count every device exactly once. */
  lemma ShownTable(screen: Screen, devices: seq<Device>, i: nat)
    requires Shows(screen, devices) && screen.Table? && i < |devices|
    ensures screen.rows[i][0] == Address(devices[i].ip, devices[i].port)
    ensures |screen.rows[i][1]| <= 18 && |screen.rows[i][2]| <= 18
    ensures Total(screen.stats.value.byCountry) == |devices|
  {
  }

  /** What `execute` does with the answer of the search it sends, for a
      module with the given base query and file prefix. */
  ghost predicate Runs(ex: Execution<Device>, baseQuery: string, filePrefix: string, search: Remote, query: string, maxResults: int) {
    && (ex.query == Compose(baseQuery, query))
    && (match search(Compose(baseQuery, query), Some(maxResults))
        case SearchFailed(e) =>
          ex.returned == [] && ex.screen.None? && ex.saved.None? && ex.error == Some(e)
        case Matches(ms) =>
          if forall i :: 0 <= i < |ms| ==> HasAddress(ms[i]) then
            && |ex.returned| == |ms|
            && (forall i :: 0 <= i < |ms| ==> ProjectDevice(ms[i]) == Ok(ex.returned[i]))
            && ex.screen.Some? && Shows(ex.screen.value, ex.returned)
            && ex.saved == SaveOf(filePrefix, ex.returned)
            && ex.error.None?
          else
            && ex.returned == [] && ex.screen.None? && ex.saved.None?
            && exists i :: FirstWithoutAddress(ms, i) && ex.error == Some(ProjectDevice(ms[i]).message))
  }

  /** `execute(api, query, max_results)` of a module with the given base query
      and result file prefix. */
  method Execute(baseQuery: string, filePrefix: string, search: Remote, query: string, maxResults: int)
    returns (ex: Execution<Device>)
    ensures Runs(ex, baseQuery, filePrefix, search, query, maxResults)
  {
    var finalQuery := Compose(baseQuery, query);
    var answer := search(finalQuery, Some(maxResults));
    if answer.SearchFailed? {
      return Execution(finalQuery, [], None, None, Some(answer.message));
    }
    var filtered := FilterResults(answer.matches);
    if filtered.Raised? {
      return Execution(finalQuery, [], None, None, Some(filtered.message));
    }
    var screen := DisplayResults(filtered.value);
    ex := Execution(finalQuery, filtered.value, Some(screen), SaveOf(filePrefix, filtered.value), None);
  }
}
