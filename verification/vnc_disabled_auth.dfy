/** The VNC module: hosts whose VNC banner reports that authentication is
    disabled, on the two usual VNC ports. Everything but the constants is the
    shared device pipeline. */
module VncDisabledAuth {
  import opened Strings
  import opened Records
  import opened PluginKit
  import DeviceSearch

  const ClassName := "vnc_disabled_auth"
  const Name := "VNC Disabled Authentication"
  const Description := "Search for VNC servers with disabled authentication."
  const BaseQuery := "\"authentication disabled\" port:5900,5901"
  const FilePrefix := "vnc_noauth-"

  /** The query sent for a user fragment: the base alone for an empty or blank
      fragment, otherwise the base, one space and the fragment right-stripped. */
  lemma FinalQuery(query: string)
    ensures IsBlank(query) ==> Compose(BaseQuery, query) == BaseQuery
    ensures !IsBlank(query) ==> Compose(BaseQuery, query) == BaseQuery + " " + TrimEnd(query)
  {
    ComposedQuery(BaseQuery, query);
  }

  /** `execute(api, query, max_results)`. */
  method Execute(search: Remote, query: string, maxResults: int) returns (ex: Execution<DeviceSearch.Device>)
    ensures IsBlank(query) ==> ex.query == BaseQuery
    ensures DeviceSearch.Runs(ex, BaseQuery, FilePrefix, search, query, maxResults)
  {
    FinalQuery(query);
    ex := DeviceSearch.Execute(BaseQuery, FilePrefix, search, query, maxResults);
  }
}
