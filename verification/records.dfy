/** One host matched by the remote search service, as the program reads it,
    and the shape of the remote search call. */
module Records {
  import opened Base
  import opened Strings

  /** A match record. Each key the program reads with `.get` or `[...]` is a
      field; a key that may be missing is an `Option`. The `location`
      sub-object is a map whose absence reads like an empty one, and so are the
      `hostnames` and `domains` lists. `http` is kept optional because the
      modules test for the presence of the key itself. */
  datatype Record = Record(
    ipStr: Option<string>,
    port: Option<int>,
    org: Option<string>,
    countryName: Option<string>,
    city: Option<string>,
    location: map<string, string>,
    http: Option<map<string, string>>,
    product: Option<string>,
    hostnames: seq<string>,
    domains: seq<string>,
    timestamp: Option<string>)

  /** What `api.search(query, ...)['matches']` yields: the list of matches, or
      the message of the exception the call (or the missing key) raised. */
  datatype SearchAnswer = Matches(matches: seq<Record>) | SearchFailed(message: string)

  /** The remote search capability: query string and optional `limit`. */
  type Remote = (string, Option<int>) -> SearchAnswer

  /** `str(KeyError(key))`. */
  function KeyError(key: string): string {
    "'" + key + "'"
  }

  /** `d.get(key, default)` on a string-valued sub-object. */
  function GetOr(m: map<string, string>, key: string, default: string): string {
    if key in m then m[key] else default
  }

  /** Both keys that `record['ip_str']` and `record['port']` need are present. */
  predicate HasAddress(r: Record) {
    r.ipStr.Some? && r.port.Some?
  }

  /** `f"{ip}:{port}"`. */
  function Address(ip: string, port: int): string {
    ip + ":" + IntToString(port)
  }

  /** `f"{country_name}/{city}"`, read from the record's top-level keys with
      "Unknown" for either missing part. */
  function TopLevelLocation(r: Record): string {
    r.countryName.GetOr("Unknown") + "/" + r.city.GetOr("Unknown")
  }
}
