/** The pieces that the search modules repeat, each written once: composing
    the final query from a fixed base, truncating a display cell, keying a
    location by its country and counting countries, projecting a match onto
    the six-field device record of the VNC and FTP modules, and the
    "empty list means no file" save rule. */
module PluginKit {
  import opened Base
  import opened Strings
  import opened Records
  import Dict

  // ---------------------------------------------------------------------------
  // Query composition: f"{base} {query}".strip() if query else base

  function Compose(base: string, query: string): string {
    if query == "" then base else Strip(base + " " + query)
  }

  /** For a base with no whitespace at either end, the composed query is the
      base itself when the fragment is empty or blank, and otherwise the base,
      one space, and the fragment with its trailing whitespace removed. */
  lemma ComposedQuery(base: string, query: string)
    requires base != [] && !IsSpace(base[0]) && !IsSpace(base[|base| - 1])
    ensures IsBlank(query) ==> Compose(base, query) == base
    ensures !IsBlank(query) ==> Compose(base, query) == base + " " + TrimEnd(query)
  {
    if query != "" {
      var s := base + " " + query;
      assert s[0] == base[0];
      assert TrimStart(s) == s;
      assert s == (base + " ") + query;
      TrimEndAppend(base + " ", query);
      if IsBlank(query) {
        assert (base + " ")[..|base|] == base;
        TrimEndAppend(base, " ");
        assert base + [] == base;
        TrimEndAppend(base, []);
      }
    }
  }

  // ---------------------------------------------------------------------------
  // Display helpers

  /** `s[:budget] + "..." if len(s) > budget else s`. */
  function Truncate(s: string, budget: nat): (r: string)
    ensures |r| <= budget + 3
    ensures |s| <= budget ==> r == s
    ensures |s| > budget ==> |r| == budget + 3 && r[..budget] == s[..budget] && r[budget..] == "..."
  {
    if |s| > budget then s[..budget] + "..." else s
  }

  /** Truncating an already truncated cell changes nothing. */
  lemma TruncateIdempotent(s: string, budget: nat)
    ensures Truncate(Truncate(s, budget), budget) == Truncate(s, budget)
  {
    if |s| > budget {
      var r := Truncate(s, budget);
      assert r[..budget] == s[..budget];
      assert r[..budget] + "..." == r;
    }
  }

  /** `location.split('/')[0]`: the country part of a "country/city" cell. */
  function Country(location: string): string {
    Split(location, '/')[0]
  }

  /** The country key of a projected location is the country it was built from,
      provided that name holds no '/'. */
  lemma CountryOfLocation(country: string, city: string)
    requires '/' !in country
    ensures Country(country + "/" + city) == country
  {
    SplitAtSeparator(country, city, '/');
  }

  /** The country key of every location, in order. */
  function Countries(locations: seq<string>): (cs: seq<string>)
    ensures |cs| == |locations|
    ensures forall i :: 0 <= i < |locations| ==> cs[i] == Country(locations[i])
  {
    seq(|locations|, i requires 0 <= i < |locations| => Country(locations[i]))
  }

  /** How many times a key occurs. */
  function CountIn(keys: seq<string>, c: string): nat
    decreases |keys|
  {
    if keys == [] then 0
    else CountIn(keys[..|keys| - 1], c) + (if keys[|keys| - 1] == c then 1 else 0)
  }

  /** The sum of the counts of a tally. */
  function Total(tally: Dict.Entries<string, nat>): nat
    decreases |tally|
  {
    if tally == [] then 0 else Total(tally[..|tally| - 1]) + tally[|tally| - 1].1
  }

  /** The distinct keys, each at the place where it first occurs. */
  function FirstOccurrences(keys: seq<string>): seq<string>
    decreases |keys|
  {
    if keys == [] then []
    else
      var earlier := keys[..|keys| - 1];
      var c := keys[|keys| - 1];
      if CountIn(earlier, c) == 0 then FirstOccurrences(earlier) + [c] else FirstOccurrences(earlier)
  }

  /** `tally` is the `countries` dictionary of the modules for these keys: one
      entry per key that occurs, in order of first occurrence, holding its
      number of occurrences, and no other entry. */
  ghost predicate IsTally(tally: Dict.Entries<string, nat>, keys: seq<string>) {
    && Dict.DistinctKeys(tally)
    && Dict.Keys(tally) == FirstOccurrences(keys)
    && (forall c {:trigger Dict.Get<string, nat>(tally, c)} :: Dict.Get<string, nat>(tally, c) == if CountIn(keys, c) == 0 then None else Some(CountIn(keys, c)))
    && Total(tally) == |keys|
  }

  lemma {:induction false} TotalUpdate(tally: Dict.Entries<string, nat>, i: nat, x: (string, nat))
    requires i < |tally|
    ensures Total(tally[i := x]) == Total(tally) - tally[i].1 + x.1
    decreases |tally|
  {
    var n := |tally| - 1;
    var t := tally[i := x];
    if i < n {
      assert t[..n] == tally[..n][i := x];
      TotalUpdate(tally[..n], i, x);
    } else {
      assert t[..n] == tally[..n];
    }
  }

  /** `countries[c] = v` changes the total by the difference of the counts. */
  lemma TotalPut(tally: Dict.Entries<string, nat>, c: string, v: nat)
    ensures Total(Dict.Put<string, nat>(tally, c, v)) == Total(tally) - Dict.Get<string, nat>(tally, c).GetOr(0) + v
  {
    if Dict.HasKey(tally, c) {
      var i := Dict.IndexOf(tally, c);
      TotalUpdate(tally, i, (c, v));
    } else {
      assert (tally + [(c, v)])[..|tally|] == tally;
    }
  }

  /** The entries of the tally after one more key. */
  lemma TallyStepEntries(tally: Dict.Entries<string, nat>, keys: seq<string>, c: string)
    requires Dict.DistinctKeys(tally)
    requires forall c' {:trigger Dict.Get<string, nat>(tally, c')} :: Dict.Get<string, nat>(tally, c') == if CountIn(keys, c') == 0 then None else Some(CountIn(keys, c'))
    ensures Dict.DistinctKeys(Dict.Put<string, nat>(tally, c, CountIn(keys, c) + 1))
    ensures forall c' :: Dict.Get<string, nat>(Dict.Put<string, nat>(tally, c, CountIn(keys, c) + 1), c')
                         == if CountIn(keys + [c], c') == 0 then None else Some(CountIn(keys + [c], c'))
  {
    var t := Dict.Put<string, nat>(tally, c, CountIn(keys, c) + 1);
    Dict.PutSpec<string, nat>(tally, c, CountIn(keys, c) + 1);
    CountInAppend(keys, c);
  }

  /** One more key raises the total of the tally by one. */
  lemma TallyStepTotal(tally: Dict.Entries<string, nat>, keys: seq<string>, c: string)
    requires IsTally(tally, keys)
    ensures Dict.Get<string, nat>(tally, c).GetOr(0) == CountIn(keys, c)
    ensures Total(Dict.Put<string, nat>(tally, c, CountIn(keys, c) + 1)) == |keys + [c]|
  {
    TotalPut(tally, c, CountIn(keys, c) + 1);
  }

  /** One iteration of the tally loop: `countries[c] = countries.get(c, 0) + 1`
      turns the tally of `keys` into the tally of `keys + [c]`. */
  lemma TallyStep(tally: Dict.Entries<string, nat>, keys: seq<string>, c: string)
    requires IsTally(tally, keys)
    ensures IsTally(Dict.Put<string, nat>(tally, c, Dict.Get<string, nat>(tally, c).GetOr(0) + 1), keys + [c])
  {
    TallyStepTotal(tally, keys, c);
    TallyStepEntries(tally, keys, c);
    Dict.PutSpec<string, nat>(tally, c, Dict.Get<string, nat>(tally, c).GetOr(0) + 1);
    assert (keys + [c])[..|keys|] == keys;
  }

  /** One more key raises its own count by one and no other. */
  lemma CountInAppend(keys: seq<string>, c: string)
    ensures forall c' :: CountIn(keys + [c], c') == CountIn(keys, c') + (if c' == c then 1 else 0)
  {
    assert (keys + [c])[..|keys|] == keys;
  }

  /** The `countries` loop of `_display_results`: the tally of the country
      keys of the given locations. */
  method TallyCountries(locations: seq<string>) returns (tally: Dict.Entries<string, nat>)
    ensures IsTally(tally, Countries(locations))
  {
    tally := [];
    ghost var keys := Countries(locations);
    for i := 0 to |locations|
      invariant IsTally(tally, keys[..i])
    {
      var c := Country(locations[i]);
      TallyStep(tally, keys[..i], c);
      assert keys[..i + 1] == keys[..i] + [c];
      tally := Dict.Put<string, nat>(tally, c, Dict.Get<string, nat>(tally, c).GetOr(0) + 1);
    }
    assert keys[..|locations|] == keys;
  }

  /** Every entry of a tally holds the positive number of occurrences of its key. */
  lemma TallyEntries(tally: Dict.Entries<string, nat>, keys: seq<string>, i: nat)
    requires IsTally(tally, keys) && i < |tally|
    ensures tally[i].1 == CountIn(keys, tally[i].0) >= 1
  {
    Dict.GetAt<string, nat>(tally, i);
  }

  // ---------------------------------------------------------------------------
  // What a search module shows and stores

  /** The statistics block printed under a non-empty table. */
  datatype Stats = Stats(first: string, last: string, byCountry: Dict.Entries<string, nat>)

  /** What `_display_results` prints: the "nothing found" line, or one row of
      cells per result followed, in the modules that print them, by the
      statistics. */
  datatype Screen = NothingFound | Table(rows: seq<seq<string>>, stats: Option<Stats>)

  /** A file written by `_save_results`: its name prefix (the timestamp and the
      ".json" suffix come from the clock) and the list dumped into it. */
  datatype Saved<T> = Saved(namePrefix: string, contents: seq<T>)

  /** The observable effect of one `execute` call: the final query sent, the
      list returned, the screen printed after filtering, the file saved and the
      error printed by the `except` branch. */
  datatype Execution<T> = Execution(query: string, returned: seq<T>, screen: Option<Screen>, saved: Option<Saved<T>>, error: Option<string>)

  /** `_save_results`: an empty list writes nothing. */
  function SaveOf<T>(namePrefix: string, results: seq<T>): (r: Option<Saved<T>>)
    ensures r.None? <==> results == []
    ensures r.Some? ==> r.value.contents == results && r.value.namePrefix == namePrefix
  {
    if results == [] then None else Some(Saved(namePrefix, results))
  }

  /** The statistics of a non-empty result list: its first and last address and
      the tally of its countries. */
  ghost predicate Summarizes(stats: Stats, addresses: seq<string>, locations: seq<string>) {
    && |addresses| > 0
    && stats.first == addresses[0]
    && stats.last == addresses[|addresses| - 1]
    && IsTally(stats.byCountry, Countries(locations))
  }

  /** The `if results:` block of `_display_results`. */
  method Summarize(addresses: seq<string>, locations: seq<string>) returns (stats: Stats)
    requires |addresses| > 0
    ensures Summarizes(stats, addresses, locations)
  {
    var tally := TallyCountries(locations);
    stats := Stats(addresses[0], addresses[|addresses| - 1], tally);
  }
}
