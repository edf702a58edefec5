/** The FTP module: FTP servers that greet with 220 and accept the
    anonymous login with 230, on port 21. Everything but the constants is the
    shared device pipeline. */
module FtpAnonymousLogin {
  import opened Strings
  import opened Records
  import opened PluginKit
  import DeviceSearch

  const ClassName := "ftp_anonymous_login"
  const Name := "FTP Anonymous Login"
  const Description := "Search for FTP servers with anonymous login enabled."
  const BaseQuery := "\"220\" \"230 Login successful.\" port:21"
  const FilePrefix := "ftp_noauth-"

  /** The query sent for a user fragment: the base alone for an empty or blank
      fragment, otherwise the base, one space and the fragment right-stripped. */
  lemma FinalQuery(query: string)
    ensures IsBlank(query) ==> Compose(BaseQuery, query) == BaseQuery
    ensures !IsBlank(query) ==> Compose(BaseQuery, query) == BaseQuery + " " + TrimEnd(query)
  {
    ComposedQuery(BaseQuery, query);
  }

  /** `execute(api, query, max_results)`. */
  method Execute(search: Remote, query: string, maxResults: int) returns (ex: Execution<DeviceSearch.Device>)
    ensures IsBlank(query) ==> ex.query == BaseQuery
    ensures DeviceSearch.Runs(ex, BaseQuery, FilePrefix, search, query, maxResults)
  {
    FinalQuery(query);
    ex := DeviceSearch.Execute(BaseQuery, FilePrefix, search, query, maxResults);
  }
}
