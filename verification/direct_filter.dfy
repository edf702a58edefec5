/** The raw search's display filter: an optional JSON filter configuration
    that drops matches by organisation, by country and by port range, and the
    table printed from what remains. */
module DirectFilter {
  import opened Base
  import opened Strings
  import opened Records

  /** The `filters` object of a configuration. A missing list reads like an
      empty one (both disable their check); a missing port bound is `None`. */
  datatype Filters = Filters(
    excludeOrgs: seq<string>,
    includeCountries: seq<string>,
    excludeCountries: seq<string>,
    minPort: Option<int>,
    maxPort: Option<int>)

  /** A loaded configuration: its `filters` key, if present, and whether it
      has any other key (which only matters for its truthiness). */
  datatype FilterConfig = FilterConfig(filters: Option<Filters>, hasOtherKeys: bool)

  /** `not filter_config`: no configuration, or an empty object. */
  predicate IsFalsy(cfg: Option<FilterConfig>) {
    cfg.None? || (cfg.value.filters.None? && !cfg.value.hasOtherKeys)
  }

  /** `result.get('location', {}).get('country_name', '')`. */
  function CountryOf(r: Record): string {
    GetOr(r.location, "country_name", "")
  }

  /** Some excluded fragment occurs in the organisation, ignoring letter case. */
  predicate OrgExcluded(f: Filters, org: string) {
    exists k :: 0 <= k < |f.excludeOrgs| && Contains(Lower(org), Lower(f.excludeOrgs[k]))
  }

  /** The country is outside a non-empty include list or inside a non-empty
      exclude list (exact comparison). */
  predicate CountryExcluded(f: Filters, country: string) {
    (|f.includeCountries| > 0 && country !in f.includeCountries)
    || (|f.excludeCountries| > 0 && country in f.excludeCountries)
  }

  /** `min_port <= port <= max_port` with the bounds defaulting to 1 and 65535
      and a missing port reading as 0. */
  predicate PortInRange(f: Filters, r: Record) {
    f.minPort.GetOr(1) <= r.port.GetOr(0) <= f.maxPort.GetOr(65535)
  }

  /** A match survives the three checks of `_apply_filter`; the org and
      country checks are skipped for an empty or missing value, and every
      check is skipped without a `filters` key. */
  predicate Keep(filters: Option<Filters>, r: Record) {
    filters.None? ||
    (&& !(r.org.GetOr("") != "" && OrgExcluded(filters.value, r.org.GetOr("")))
     && !(CountryOf(r) != "" && CountryExcluded(filters.value, CountryOf(r)))
     && PortInRange(filters.value, r))
  }

  function KeepFn(filters: Option<Filters>): Record -> bool {
    r => Keep(filters, r)
  }

  /** `_apply_filter`. */
  method ApplyFilter(results: seq<Record>, cfg: Option<FilterConfig>) returns (filtered: seq<Record>)
    ensures IsFalsy(cfg) ==> filtered == results
    ensures !IsFalsy(cfg) ==> filtered == Filter(results, KeepFn(cfg.value.filters))
  {
    if IsFalsy(cfg) {
      return results;
    }
    var fc := cfg.value;
    filtered := [];
    for i := 0 to |results|
      invariant filtered == Filter(results[..i], KeepFn(fc.filters))
    {
      var r := results[i];
      assert results[..i + 1] == results[..i] + [r];
      var org := r.org.GetOr("");
      if org != "" && fc.filters.Some? {
        if OrgExcluded(fc.filters.value, org) {
          continue;
        }
      }
      var country := CountryOf(r);
      if country != "" && fc.filters.Some? {
        var f := fc.filters.value;
        if |f.includeCountries| > 0 && country !in f.includeCountries {
          continue;
        }
        if |f.excludeCountries| > 0 && country in f.excludeCountries {
          continue;
        }
      }
      if fc.filters.Some? {
        var minPort := fc.filters.value.minPort.GetOr(1);
        var maxPort := fc.filters.value.maxPort.GetOr(65535);
        var port := r.port.GetOr(0);
        if !(minPort <= port <= maxPort) {
          continue;
        }
      }
      filtered := filtered + [r];
    }
    assert results[..|results|] == results;
  }

  /** What a non-falsy configuration keeps is an order-preserving subsequence
      of the matches, and a configuration without `filters` keeps them all. */
  lemma FilteredIsSubsequence(results: seq<Record>, filters: Option<Filters>)
    ensures IsSubsequence(Filter(results, KeepFn(filters)), results)
    ensures filters.None? ==> Filter(results, KeepFn(filters)) == results
  {
    FilterIsSubsequence(results, KeepFn(filters));
    if filters.None? {
      FilterAll(results, KeepFn(filters));
    }
  }

  /** The organisation rule: a match with a non-empty organisation is dropped
      when some excluded fragment occurs in it ignoring case; a match with an
      empty or missing organisation never fails this check. */
  lemma OrgRule(results: seq<Record>, f: Filters, r: Record)
    requires r in results
    ensures r.org.GetOr("") != "" && OrgExcluded(f, r.org.GetOr("")) ==> r !in Filter(results, KeepFn(Some(f)))
    ensures r.org.GetOr("") == "" && !(CountryOf(r) != "" && CountryExcluded(f, CountryOf(r))) && PortInRange(f, r) ==>
                  r in Filter(results, KeepFn(Some(f)))
  {
    FilterMembers(results, KeepFn(Some(f)), r);
  }

  /** The country rule: with a non-empty country, a match outside a non-empty
      include list or inside a non-empty exclude list is dropped; an empty or
      missing country never fails this check. */
  lemma CountryRule(results: seq<Record>, f: Filters, r: Record)
    requires r in results
    ensures CountryOf(r) != "" && |f.includeCountries| > 0 && CountryOf(r) !in f.includeCountries ==>
                  r !in Filter(results, KeepFn(Some(f)))
    ensures CountryOf(r) != "" && |f.excludeCountries| > 0 && CountryOf(r) in f.excludeCountries ==>
                  r !in Filter(results, KeepFn(Some(f)))
    ensures CountryOf(r) == "" && !(r.org.GetOr("") != "" && OrgExcluded(f, r.org.GetOr(""))) && PortInRange(f, r) ==>
                  r in Filter(results, KeepFn(Some(f)))
  {
    FilterMembers(results, KeepFn(Some(f)), r);
  }

  /** The port rule: every kept match lies within the bounds; with both bounds
      left at their defaults a match without a port is dropped. */
  lemma PortRule(results: seq<Record>, f: Filters, r: Record)
    ensures r in Filter(results, KeepFn(Some(f))) ==> f.minPort.GetOr(1) <= r.port.GetOr(0) <= f.maxPort.GetOr(65535)
    ensures f.minPort.None? && r.port.None? ==> r !in Filter(results, KeepFn(Some(f)))
  {
    FilterMembers(results, KeepFn(Some(f)), r);
  }

  /** What `_display_search_results` prints. */
  datatype DirectScreen = NoResults | NoResultsAfterFilter | DirectTable(rows: seq<seq<string>>)

  /** `s[:n]`. */
  function Prefix(s: string, n: nat): (r: string)
    ensures |r| <= n && StartsWith(s, r)
    ensures |s| <= n ==> r == s
  {
    if |s| <= n then s else s[..n]
  }

  /** The cells of one row: "ip:port" with "N/A" for a missing part, then the
      organisation cut to 20 characters, country and city (from `location`)
      to 15 and product to 20, without an ellipsis. */
  function DirectRow(r: Record): seq<string> {
    [ r.ipStr.GetOr("N/A") + ":" + (if r.port.Some? then IntToString(r.port.value) else "N/A"),
      Prefix(r.org.GetOr("Unknown"), 20),
      Prefix(GetOr(r.location, "country_name", "Unknown"), 15),
      Prefix(GetOr(r.location, "city", "Unknown"), 15),
      Prefix(r.product.GetOr("Unknown"), 20) ]
  }

  /** The filtered view of the matches: all of them for a falsy configuration. */
  function Shown(results: seq<Record>, cfg: Option<FilterConfig>): seq<Record> {
    if IsFalsy(cfg) then results else Filter(results, KeepFn(cfg.value.filters))
  }

  /** `screen` is what `_display_search_results` prints for the matches: the
      "no results" line for an empty list, the "nothing left after filtering"
      line when the filter drops all, and otherwise one row per kept match in
      order. */
  ghost predicate DirectShows(screen: DirectScreen, results: seq<Record>, cfg: Option<FilterConfig>) {
    && (results == [] <==> screen == NoResults)
    && (results != [] ==> (Shown(results, cfg) == [] <==> screen == NoResultsAfterFilter))
    && (screen.DirectTable? ==>
          && |screen.rows| == |Shown(results, cfg)|
          && forall i :: 0 <= i < |screen.rows| ==> screen.rows[i] == DirectRow(Shown(results, cfg)[i]))
  }

  /** `_display_search_results`. */
  method DisplaySearchResults(results: seq<Record>, cfg: Option<FilterConfig>) returns (screen: DirectScreen)
    ensures DirectShows(screen, results, cfg)
  {
    if results == [] {
      return NoResults;
    }
    var kept := ApplyFilter(results, cfg);
    if kept == [] {
      return NoResultsAfterFilter;
    }
    var rows := [];
    for i := 0 to |kept|
      invariant |rows| == i && forall j :: 0 <= j < i ==> rows[j] == DirectRow(kept[j])
    {
      rows := rows + [DirectRow(kept[i])];
    }
    screen := DirectTable(rows);
  }
}
