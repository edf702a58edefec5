/** The ComfyUI module: a long fixed query for ComfyUI front pages, then a
    local check that keeps only pages whose title names ComfyUI and whose
    organisation is not one of the large cloud providers. */
module ComfyUI {
  import opened Base
  import opened Strings
  import opened Records
  import opened PluginKit

  const ClassName := "ComfyUIModule"
  const Name := "comfyui"
  const Description := "Search for ComfyUI instances with advanced filtering"
  const FilePrefix := "comfyui-"
  /** The base query: its first term, the exclusions and required words, and
      its last term. */
  const BaseQuery := FirstTerm + MiddleTerms + LastTerm
  const FirstTerm := "http.title:\"ComfyUI\""
  const MiddleTerms := " -http.title:\"ComfyUI Login\" -org:\"Amazon.com Inc.\" -org:\"Amazon Data Services\" -org:\"Amazon Technologies\" -org:\"A100 ROW\" -org:\"Amazon Corporate Services Pty Ltd\" -org:\"AWS Asia Pacific (Seoul) Region\" -http.favicon.hash:1045696447 -http.favicon.hash:1592926977 -http.favicon.hash:2091717113 -http.favicon.hash:1924358485 -http.favicon.hash:1750461220 -http.favicon.hash:939607277 -http.favicon.hash:1750461220 -http.favicon.hash:-1439222863 -http.favicon.hash:-1750461220 -http.favicon.hash:444712798 \"Python\" \"aiohttp\" \"Expires\""
  const LastTerm := " -country:\"CN\""

  /** Organisation fragments that disqualify an instance. */
  const ExcludedOrgs := ["amazon", "aws", "google", "microsoft", "cloudflare"]

  /** The query sent for a user fragment: the base alone for an empty or blank
      fragment, otherwise the base, one space and the fragment right-stripped. */
  lemma FinalQuery(query: string)
    ensures IsBlank(query) ==> Compose(BaseQuery, query) == BaseQuery
    ensures !IsBlank(query) ==> Compose(BaseQuery, query) == BaseQuery + " " + TrimEnd(query)
  {
    assert BaseQuery[0] == FirstTerm[0] == 'h';
    assert BaseQuery[|BaseQuery| - 1] == LastTerm[|LastTerm| - 1] == '"';
    ComposedQuery(BaseQuery, query);
  }

  /** The record `_filter_results` builds for a match with an `http` key. */
  datatype Instance = Instance(
    ip: string, port: int, server: string, title: string, location: string,
    org: string, hostnames: seq<string>, domains: seq<string>)

  /** The dictionary literal of `_filter_results`: `result['ip_str']` then
      `result['port']` raise KeyError when missing; the rest has defaults. */
  function Project(r: Record): Outcome<Instance>
    requires r.http.Some?
  {
    if r.ipStr.None? then Raised(KeyError("ip_str"))
    else if r.port.None? then Raised(KeyError("port"))
    else Ok(Instance(r.ipStr.value, r.port.value,
                     GetOr(r.http.value, "server", "Unknown"), GetOr(r.http.value, "title", "No title"),
                     TopLevelLocation(r), r.org.GetOr("Unknown"), r.hostnames, r.domains))
  }

  predicate HasExcludedOrg(org: string) {
    exists k :: 0 <= k < |ExcludedOrgs| && Contains(Lower(org), ExcludedOrgs[k])
  }

  /** `_is_valid_comfyui_instance`. */
  predicate IsValidInstance(x: Instance) {
    (Contains(Lower(x.title), "comfyui") || Contains(Lower(x.title), "comfy ui")) && !HasExcludedOrg(x.org)
  }

  /** A match that reaches the output list. */
  predicate Keeps(r: Record) {
    r.http.Some? && Project(r).Ok? && IsValidInstance(Project(r).value)
  }

  /** A match whose projection raises: it has `http` but lacks an address. */
  predicate Breaks(r: Record) {
    r.http.Some? && !HasAddress(r)
  }

  /** The projections of the kept matches, in input order. */
  function Kept(results: seq<Record>): seq<Instance>
    decreases |results|
  {
    if results == [] then []
    else
      var r := results[|results| - 1];
      Kept(results[..|results| - 1]) + (if Keeps(r) then [Project(r).value] else [])
  }

  /** The kept instances are exactly the projections of the matches the
      generic order-preserving filter keeps, position by position. */
  lemma {:induction false} KeptIsFilter(results: seq<Record>)
    ensures |Kept(results)| == |Filter(results, Keeps)|
    ensures forall i :: 0 <= i < |Kept(results)| ==>
              Keeps(Filter(results, Keeps)[i]) && Kept(results)[i] == Project(Filter(results, Keeps)[i]).value
    decreases |results|
  {
    if results != [] {
      var n := |results| - 1;
      KeptIsFilter(results[..n]);
    }
  }

  /** Every kept instance has a title naming ComfyUI (in any letter case,
      with or without a space) and an organisation free of every excluded
      fragment; every match with `http`, an address and such a projection is
      kept. */
  lemma {:induction false} KeptMembers(results: seq<Record>, x: Instance)
    ensures x in Kept(results) <==> exists r :: r in results && Keeps(r) && Project(r).value == x
    ensures x in Kept(results) ==>
              (Contains(Lower(x.title), "comfyui") || Contains(Lower(x.title), "comfy ui"))
              && forall k :: 0 <= k < |ExcludedOrgs| ==> !Contains(Lower(x.org), ExcludedOrgs[k])
    decreases |results|
  {
    if results != [] {
      var n := |results| - 1;
      KeptMembers(results[..n], x);
      assert results == results[..n] + [results[n]];
      if exists r :: r in results && Keeps(r) && Project(r).value == x {
        var r :| r in results && Keeps(r) && Project(r).value == x;
        if r != results[n] {
          assert r in results[..n];
        }
      }
    }
  }

  /** The first match whose projection raises. */
  ghost predicate FirstBreak(results: seq<Record>, i: int) {
    && 0 <= i < |results|
    && Breaks(results[i])
    && forall j :: 0 <= j < i ==> !Breaks(results[j])
  }

  /** `_filter_results`: the kept instances in order, or the KeyError of the
      first match with `http` but without `ip_str` or `port`. */
  method FilterResults(results: seq<Record>) returns (out: Outcome<seq<Instance>>)
    ensures out.Ok? <==> forall i :: 0 <= i < |results| ==> !Breaks(results[i])
    ensures out.Ok? ==> out.value == Kept(results)
    ensures out.Raised? ==> exists i :: FirstBreak(results, i) && out.message == Project(results[i]).message
  {
    var filtered := [];
    for i := 0 to |results|
      invariant forall j :: 0 <= j < i ==> !Breaks(results[j])
      invariant filtered == Kept(results[..i])
    {
      var r := results[i];
      assert results[..i + 1] == results[..i] + [r];
      if r.http.Some? {
        var p := Project(r);
        if p.Raised? {
          assert FirstBreak(results, i);
          return Raised(p.message);
        }
        if IsValidInstance(p.value) {
          filtered := filtered + [p.value];
        }
      }
    }
    assert results[..|results|] == results;
    return Ok(filtered);
  }

  /** The cells of one table row: the address, then the organisation and the
      location cut to 15 characters and the title to 30, each plus "...". */
  function Row(x: Instance): seq<string> {
    [Address(x.ip, x.port), Truncate(x.org, 15), Truncate(x.location, 15), Truncate(x.title, 30)]
  }

  function Addresses(xs: seq<Instance>): (r: seq<string>)
    ensures |r| == |xs| && forall i :: 0 <= i < |xs| ==> r[i] == Address(xs[i].ip, xs[i].port)
  {
    seq(|xs|, i requires 0 <= i < |xs| => Address(xs[i].ip, xs[i].port))
  }

  function Locations(xs: seq<Instance>): (r: seq<string>)
    ensures |r| == |xs| && forall i :: 0 <= i < |xs| ==> r[i] == xs[i].location
  {
    seq(|xs|, i requires 0 <= i < |xs| => xs[i].location)
  }

  /** `screen` is what `_display_results` prints for these instances. */
  ghost predicate Shows(screen: Screen, xs: seq<Instance>) {
    && (screen.NothingFound? <==> xs == [])
    && (screen.Table? ==>
          && |screen.rows| == |xs|
          && (forall i :: 0 <= i < |xs| ==> screen.rows[i] == Row(xs[i]))
          && screen.stats.Some? && Summarizes(screen.stats.value, Addresses(xs), Locations(xs)))
  }

  /** `_display_results`. */
  method DisplayResults(xs: seq<Instance>) returns (screen: Screen)
    ensures Shows(screen, xs)
  {
    if xs == [] {
      return NothingFound;
    }
    var rows := [];
    for i := 0 to |xs|
      invariant |rows| == i && forall j :: 0 <= j < i ==> rows[j] == Row(xs[j])
    {
      rows := rows + [Row(xs[i])];
    }
    var stats := Summarize(Addresses(xs), Locations(xs));
    screen := Table(rows, Some(stats));
  }

  /** What `execute` does with the answer of the search it sends. */
  ghost predicate Runs(ex: Execution<Instance>, search: Remote, query: string, maxResults: int) {
    && (ex.query == Compose(BaseQuery, query))
    && (match search(Compose(BaseQuery, query), Some(maxResults))
        case SearchFailed(e) =>
          ex.returned == [] && ex.screen.None? && ex.saved.None? && ex.error == Some(e)
        case Matches(ms) =>
          if forall i :: 0 <= i < |ms| ==> !Breaks(ms[i]) then
            && ex.returned == Kept(ms)
            && ex.screen.Some? && Shows(ex.screen.value, ex.returned)
            && ex.saved == SaveOf(FilePrefix, ex.returned)
            && ex.error.None?
          else
            && ex.returned == [] && ex.screen.None? && ex.saved.None?
            && exists i :: FirstBreak(ms, i) && ex.error == Some(Project(ms[i]).message))
  }

  /** `execute(api, query, max_results)`: an exception anywhere (the search,
      a KeyError while filtering) is printed and yields an empty list and no
      file; otherwise the kept instances are shown, saved when there are any,
      and returned. */
  method Execute(search: Remote, query: string, maxResults: int) returns (ex: Execution<Instance>)
    ensures Runs(ex, search, query, maxResults)
  {
    var finalQuery := Compose(BaseQuery, query);
    var answer := search(finalQuery, Some(maxResults));
    if answer.SearchFailed? {
      return Execution(finalQuery, [], None, None, Some(answer.message));
    }
    var filtered := FilterResults(answer.matches);
    if filtered.Raised? {
      return Execution(finalQuery, [], None, None, Some(filtered.message));
    }
    var screen := DisplayResults(filtered.value);
    ex := Execution(finalQuery, filtered.value, Some(screen), SaveOf(FilePrefix, filtered.value), None);
  }
}
