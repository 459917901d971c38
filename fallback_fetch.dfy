/**
 * The equity-metrics page variant that always shows a result card: a fixed
 * six-field record filled from the provider's OVERVIEW payload verbatim, or an
 * all-"NA" record whenever there is no key or the fetch fails.
 */
module FallbackFetch {
  import opened Wrappers

  /** A JSON object of the provider, with its values as text. */
  type Payload = map<string, string>

  /** The result card: field label to displayed text. */
  type Record = map<string, string>

  /** The OVERVIEW request for a symbol: None when anything in the try block raises. */
  type Overview = string -> Option<Payload>

  const NA := "NA"
  const Company := "Company"
  const SectorPe := "Sector PE"

  /** The six fields of every result. */
  const ResultKeys: set<string> := {Company, "PE", SectorPe, "P/B", "Dividend Yield", "ROE"}

  /** The four ratio fields, each with the payload field it is copied from. */
  const RatioSources: map<string, string> :=
    map["PE" := "PERatio", "P/B" := "PriceToBookRatio",
        "Dividend Yield" := "DividendYield", "ROE" := "ReturnOnEquityTTM"]

  /** `data.get(key, default)`. */
  function GetOr(data: Payload, key: string, default: string): string {
    if key in data then data[key] else default
  }

  /** dummy_data: the query as Company and "NA" in every other field. */
  function DummyData(companyQuery: string): (r: Record)
    ensures r.Keys == ResultKeys
    ensures r[Company] == companyQuery
    ensures forall k :: k in r && k != Company ==> r[k] == NA
  {
    map[Company := companyQuery, "PE" := NA, SectorPe := NA,
        "P/B" := NA, "Dividend Yield" := NA, "ROE" := NA]
  }

  /**
   * fetch_data: without a key, or when the request fails, the dummy record; otherwise
   * the payload's Name (or the query) and the four ratio fields copied as text,
   * "NA" where the payload lacks them. Sector PE is never computed here.
   */
  function FetchData(apiKey: string, companyQuery: string, symbol: string, overview: Overview): (r: Record)
    ensures r.Keys == ResultKeys
    ensures r[SectorPe] == NA
    ensures apiKey == "" || overview(symbol).None? ==> r == DummyData(companyQuery)
    ensures apiKey != "" && overview(symbol).Some? ==>
              var data := overview(symbol).value;
              ("Name" in data ==> r[Company] == data["Name"]) &&
              ("Name" !in data ==> r[Company] == companyQuery) &&
              (forall k :: k in RatioSources && RatioSources[k] in data ==> r[k] == data[RatioSources[k]]) &&
              (forall k :: k in RatioSources && RatioSources[k] !in data ==> r[k] == NA)
  {
    if apiKey == "" then DummyData(companyQuery)
    else match overview(symbol)
      case None => DummyData(companyQuery)
      case Some(data) =>
        map[Company := GetOr(data, "Name", companyQuery),
            "PE" := GetOr(data, "PERatio", NA),
            SectorPe := NA,
            "P/B" := GetOr(data, "PriceToBookRatio", NA),
            "Dividend Yield" := GetOr(data, "DividendYield", NA),
            "ROE" := GetOr(data, "ReturnOnEquityTTM", NA)]
  }

  /**
   * A payload that carries none of the five source fields yields exactly the
   * dummy record: the card cannot tell such a payload from a failed fetch.
   */
  lemma SparsePayloadLooksLikeFailure(apiKey: string, companyQuery: string, symbol: string, overview: Overview)
    requires overview(symbol).Some?
    requires "Name" !in overview(symbol).value
    requires forall k :: k in RatioSources ==> RatioSources[k] !in overview(symbol).value
    ensures FetchData(apiKey, companyQuery, symbol, overview) == DummyData(companyQuery)
  {
  }

  /** A ratio field reads "NA" exactly when the payload lacks its source field or itself says "NA". */
  lemma RatioNAExactly(apiKey: string, companyQuery: string, symbol: string, overview: Overview, k: string)
    requires apiKey != "" && overview(symbol).Some?
    requires k in RatioSources
    ensures var data := overview(symbol).value;
            FetchData(apiKey, companyQuery, symbol, overview)[k] == NA <==>
            RatioSources[k] !in data || data[RatioSources[k]] == NA
  {
  }
}
