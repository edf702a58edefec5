/** The minimal template module: search, filter, format one "ip:port" line
    per device and put a four-line summary in front. Its class defines no
    `_filter_results`, so every call that gets past the search fails on that
    attribute; `ExecuteKeepingAll` is the same method with the filter
    evidently meant to be there, one that keeps every match. */
module EasyExample {
  import opened Base
  import opened Strings
  import opened Records

  const ClassName := "YourModuleName"
  const Name := "Easy Example"
  const Description := "the easy example module"
  const DefaultQuery := "here is a query"

  /** `str(e)` for the AttributeError raised by `self._filter_results`. */
  const MissingFilterMessage := "'" + ClassName + "' object has no attribute '_filter_results'"

  /** `query or 'here is a query'`. */
  function SearchQuery(query: string): (q: string)
    ensures query == "" ==> q == DefaultQuery
    ensures query != "" ==> q == query
  {
    if query != "" then query else DefaultQuery
  }

  /** `f"Error: {e}"`. */
  function ErrorLine(message: string): string {
    "Error: " + message
  }

  /** One line of `_format_output`: `d['ip_str']` then `d['port']` raise
      KeyError when missing. */
  function FormatLine(d: Record): Outcome<string> {
    if d.ipStr.None? then Raised(KeyError("ip_str"))
    else if d.port.None? then Raised(KeyError("port"))
    else Ok(Address(d.ipStr.value, d.port.value))
  }

  /** A formatted line is the address, and reading it back up to the first
      ':' gives the IP string whenever that holds no ':'. */
  lemma FormattedLine(d: Record)
    ensures FormatLine(d).Ok? <==> HasAddress(d)
    ensures FormatLine(d).Ok? && ':' !in d.ipStr.value ==>
              Split(FormatLine(d).value, ':')[0] == d.ipStr.value
  {
    if HasAddress(d) && ':' !in d.ipStr.value {
      SplitAtSeparator(d.ipStr.value, IntToString(d.port.value), ':');
      assert FormatLine(d).value == d.ipStr.value + [':'] + IntToString(d.port.value);
    }
  }

  /** The first position whose device lacks an address. */
  ghost predicate FirstWithoutAddress(devices: seq<Record>, i: int) {
    && 0 <= i < |devices|
    && !HasAddress(devices[i])
    && forall j :: 0 <= j < i ==> HasAddress(devices[j])
  }

  /** `_format_output`: one line per device, in order, or the KeyError of the
      first device without `ip_str` or `port`. */
  method FormatOutput(devices: seq<Record>) returns (out: Outcome<seq<string>>)
    ensures out.Ok? <==> forall i :: 0 <= i < |devices| ==> HasAddress(devices[i])
    ensures out.Ok? ==> |out.value| == |devices|
                        && forall i :: 0 <= i < |devices| ==> out.value[i] == Address(devices[i].ipStr.value, devices[i].port.value)
    ensures out.Raised? ==> exists i :: FirstWithoutAddress(devices, i) && out.message == FormatLine(devices[i]).message
  {
    var output := [];
    for i := 0 to |devices|
      invariant |output| == i
      invariant forall j :: 0 <= j < i ==> HasAddress(devices[j]) && output[j] == Address(devices[j].ipStr.value, devices[j].port.value)
    {
      var line := FormatLine(devices[i]);
      if line.Raised? {
        assert FirstWithoutAddress(devices, i);
        return Raised(line.message);
      }
      output := output + [line.value];
    }
    return Ok(output);
  }

  /** The four lines put in front of the device lines; the query shown is
      the argument as given, not the fallback actually searched. */
  function Header(query: string, found: nat): seq<string> {
    ["=== " + Name + " ===", "Query: " + query, "Found: " + NatToString(found), Repeat('-', 50)]
  }

  /** `execute(api, query)` as written: a failed search gives its error line,
      and a successful one fails on the missing `_filter_results`, so the
      result is always a single error line. */
  method Execute(search: Remote, query: string) returns (output: seq<string>)
    ensures |output| == 1 && StartsWith(output[0], "Error: ")
    ensures search(SearchQuery(query), None).SearchFailed? ==>
              output == [ErrorLine(search(SearchQuery(query), None).message)]
    ensures search(SearchQuery(query), None).Matches? ==> output == [ErrorLine(MissingFilterMessage)]
  {
    var answer := search(SearchQuery(query), None);
    if answer.SearchFailed? {
      return [ErrorLine(answer.message)];
    }
    // `self._filter_results` is looked up before its argument is evaluated
    // and does not exist.
    output := [ErrorLine(MissingFilterMessage)];
  }

  /** `execute(api, query)` with a `_filter_results` that keeps every match:
      the header with the number of matches, then one "ip:port" line per
      match in order, or a single error line. */
  method ExecuteKeepingAll(search: Remote, query: string) returns (output: seq<string>)
    ensures match search(SearchQuery(query), None)
      case SearchFailed(e) => output == [ErrorLine(e)]
      case Matches(ms) =>
        if forall i :: 0 <= i < |ms| ==> HasAddress(ms[i]) then
          && |output| == 4 + |ms|
          && output[..4] == Header(query, |ms|)
          && forall i :: 0 <= i < |ms| ==> output[4 + i] == Address(ms[i].ipStr.value, ms[i].port.value)
        else
          exists i :: FirstWithoutAddress(ms, i) && output == [ErrorLine(FormatLine(ms[i]).message)]
  {
    var answer := search(SearchQuery(query), None);
    if answer.SearchFailed? {
      return [ErrorLine(answer.message)];
    }
    var filtered := answer.matches;
    var lines := FormatOutput(filtered);
    if lines.Raised? {
      return [ErrorLine(lines.message)];
    }
    output := Header(query, |filtered|) + lines.value;
  }
}
