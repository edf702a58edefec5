/** The English example module: a documented template that searches with a
    caller-supplied query (a default when the argument is omitted), keeps
    matches with HTTP data whose server banner names a well-known web server,
    and prints them; it saves nothing. */
module EngExample {
  import opened Base
  import opened Strings
  import opened Records
  import opened PluginKit

  const ClassName := "ExampleModule"
  const Name := "example"
  const Description := "Example module demonstrating module creation and search algorithms"
  const DefaultQuery := "port:80 product:Apache"

  /** Server banner fragments that make a match interesting (case-sensitive). */
  const InterestingServers := ["Apache", "nginx", "IIS", "lighttpd"]

  /** The query argument: its default applies only when it is omitted, so an
      explicit empty string is searched as it is. */
  function FinalQuery(query: Option<string>): (q: string)
    ensures query.None? ==> q == DefaultQuery
    ensures query.Some? ==> q == query.value
  {
    query.GetOr(DefaultQuery)
  }

  /** The record `_filter_results` builds for a match with an `http` key. */
  datatype Device = Device(ip: string, port: int, server: string, title: string, location: string)

  /** The dictionary literal of `_filter_results`: `result['ip_str']` then
      `result['port']` raise KeyError when missing; the rest has defaults. */
  function Project(r: Record): Outcome<Device>
    requires r.http.Some?
  {
    if r.ipStr.None? then Raised(KeyError("ip_str"))
    else if r.port.None? then Raised(KeyError("port"))
    else Ok(Device(r.ipStr.value, r.port.value,
                   GetOr(r.http.value, "server", "Unknown"), GetOr(r.http.value, "title", "No title"),
                   TopLevelLocation(r)))
  }

  /** `any(server in d['server'] for server in interesting_servers)`. */
  predicate IsInteresting(d: Device) {
    exists k :: 0 <= k < |InterestingServers| && Contains(d.server, InterestingServers[k])
  }

  /** A match that reaches the output list. */
  predicate Keeps(r: Record) {
    r.http.Some? && Project(r).Ok? && IsInteresting(Project(r).value)
  }

  /** A match whose projection raises: it has `http` but lacks an address. */
  predicate Breaks(r: Record) {
    r.http.Some? && !HasAddress(r)
  }

  /** The projections of the kept matches, in input order. */
  function Kept(results: seq<Record>): seq<Device>
    decreases |results|
  {
    if results == [] then []
    else
      var r := results[|results| - 1];
      Kept(results[..|results| - 1]) + (if Keeps(r) then [Project(r).value] else [])
  }

  /** The kept devices are exactly the projections of the matches the generic
      order-preserving filter keeps, position by position. */
  lemma {:induction false} KeptIsFilter(results: seq<Record>)
    ensures |Kept(results)| == |Filter(results, Keeps)|
    ensures forall i :: 0 <= i < |Kept(results)| ==>
              Keeps(Filter(results, Keeps)[i]) && Kept(results)[i] == Project(Filter(results, Keeps)[i]).value
    decreases |results|
  {
    if results != [] {
      var n := |results| - 1;
      KeptIsFilter(results[..n]);
    }
  }

  /** A device is kept exactly when some match with HTTP data projects onto
      it, and its server banner then contains one of the four names with
      the letter case as written. */
  lemma {:induction false} KeptMembers(results: seq<Record>, d: Device)
    ensures d in Kept(results) <==> exists r :: r in results && Keeps(r) && Project(r).value == d
    ensures d in Kept(results) ==> exists k :: 0 <= k < |InterestingServers| && Contains(d.server, InterestingServers[k])
    decreases |results|
  {
    if results != [] {
      var n := |results| - 1;
      KeptMembers(results[..n], d);
      assert results == results[..n] + [results[n]];
      if exists r :: r in results && Keeps(r) && Project(r).value == d {
        var r :| r in results && Keeps(r) && Project(r).value == d;
        if r != results[n] {
          assert r in results[..n];
        }
      }
    }
  }

  /** The first match whose projection raises. */
  ghost predicate FirstBreak(results: seq<Record>, i: int) {
    && 0 <= i < |results|
    && Breaks(results[i])
    && forall j :: 0 <= j < i ==> !Breaks(results[j])
  }

  /** `_filter_results`: the kept devices in order, or the KeyError of the
      first match with `http` but without `ip_str` or `port`. */
  method FilterResults(results: seq<Record>) returns (out: Outcome<seq<Device>>)
    ensures out.Ok? <==> forall i :: 0 <= i < |results| ==> !Breaks(results[i])
    ensures out.Ok? ==> out.value == Kept(results)
    ensures out.Raised? ==> exists i :: FirstBreak(results, i) && out.message == Project(results[i]).message
  {
    var filtered := [];
    for i := 0 to |results|
      invariant forall j :: 0 <= j < i ==> !Breaks(results[j])
      invariant filtered == Kept(results[..i])
    {
      var r := results[i];
      assert results[..i + 1] == results[..i] + [r];
      if r.http.Some? {
        var p := Project(r);
        if p.Raised? {
          assert FirstBreak(results, i);
          return Raised(p.message);
        }
        if IsInteresting(p.value) {
          filtered := filtered + [p.value];
        }
      }
    }
    assert results[..|results|] == results;
    return Ok(filtered);
  }

  /** The cells of one table row: the address, the server cut to 15
      characters and the title to 25, each plus "...", and the location. */
  function Row(d: Device): seq<string> {
    [Address(d.ip, d.port), Truncate(d.server, 15), Truncate(d.title, 25), d.location]
  }

  /** `screen` is what `_display_results` prints: no statistics block. */
  ghost predicate Shows(screen: Screen, devices: seq<Device>) {
    && (screen.NothingFound? <==> devices == [])
    && (screen.Table? ==>
          && |screen.rows| == |devices|
          && (forall i :: 0 <= i < |devices| ==> screen.rows[i] == Row(devices[i]))
          && screen.stats.None?)
  }

  /** `_display_results`. */
  method DisplayResults(devices: seq<Device>) returns (screen: Screen)
    ensures Shows(screen, devices)
  {
    if devices == [] {
      return NothingFound;
    }
    var rows := [];
    for i := 0 to |devices|
      invariant |rows| == i && forall j :: 0 <= j < i ==> rows[j] == Row(devices[j])
    {
      rows := rows + [Row(devices[i])];
    }
    screen := Table(rows, None);
  }

  /** What `execute` does with the answer of the search it sends. */
  ghost predicate Runs(ex: Execution<Device>, search: Remote, query: Option<string>, maxResults: int) {
    && (ex.query == FinalQuery(query))
    && (ex.saved.None?)
    && (match search(FinalQuery(query), Some(maxResults))
        case SearchFailed(e) =>
          ex.returned == [] && ex.screen.None? && ex.error == Some(e)
        case Matches(ms) =>
          if forall i :: 0 <= i < |ms| ==> !Breaks(ms[i]) then
            && ex.returned == Kept(ms)
            && ex.screen.Some? && Shows(ex.screen.value, ex.returned)
            && ex.error.None?
          else
            && ex.returned == [] && ex.screen.None?
            && exists i :: FirstBreak(ms, i) && ex.error == Some(Project(ms[i]).message))
  }

  /** `execute(api, query, max_results)`: like the other search modules, but
      the query is used as given and nothing is ever saved. */
  method Execute(search: Remote, query: Option<string>, maxResults: int) returns (ex: Execution<Device>)
    ensures Runs(ex, search, query, maxResults)
  {
    var finalQuery := FinalQuery(query);
    var answer := search(finalQuery, Some(maxResults));
    if answer.SearchFailed? {
      return Execution(finalQuery, [], None, None, Some(answer.message));
    }
    var filtered := FilterResults(answer.matches);
    if filtered.Raised? {
      return Execution(finalQuery, [], None, None, Some(filtered.message));
    }
    var screen := DisplayResults(filtered.value);
    ex := Execution(finalQuery, filtered.value, Some(screen), None, None);
  }
}
