# Equity metrics fetcher — a Dafny model

The repository is a set of Streamlit demo pages. Two of them carry logic:

- `nvp4_ept.py` turns a company name into a ticker with a provider's symbol search. It offers the
  first five matches as labels and recovers the symbol from the label the user picks. It reads P/E,
  P/B, dividend yield and ROE from the provider's OVERVIEW payload through `safe_float`. When asked,
  it approximates a sector P/E as the mean P/E of up to six peer companies.
- `nvt5_ept.py` always shows a six-field result card. The fields are copied as text from the
  payload, with `"NA"` for missing fields. When there is no key or the fetch fails, Company holds the
  query and every other field is `"NA"`.

The model lifts the inline code of `nvp4_ept.py` into functions and methods. The provider calls
become parameters:

- An OVERVIEW lookup is a function from a symbol to `Some(payload)`, or `None` when the request
  raised.
- The peers response is `Some(entries)`, or `None` when fetching or iterating it raised.
- Python's `float()` on a string is the parameter `parse: string -> Option<real>`, where `None`
  means `float()` raised.

P/E values are reals.

Files:

- `wrappers.dfy` — `Option`.
- `pytext.dfy` — the Python string operations used: `strip()`, `split(sep)[0]`, `upper()`.
- `equity_metrics.dfy` — `nvp4_ept.py`: `safe_float`, `infer_exchange_suffix`, the option labels,
  the symbol pick, the peer filter, the per-peer loop (a method with loop invariants), the mean,
  and step 3 as a whole.
- `fallback_fetch.dfy` — `nvt5_ept.py`: `dummy_data` and `fetch_data`.

Where the code does less than the pages' own descriptions suggest, the model follows the code:

- `safe_float` does not turn zero, negative or non-finite values into "absent". `"0"` parses to
  `0.0`, and `"NaN"` or `"inf"` are handed to `float()`. Only the peer loop drops non-positive
  values.
- The sector estimate checks only the compute flag and the peer-service key. The fundamentals key
  is checked earlier, at page level.
- `fetch_data` copies the ratio fields verbatim as text. It does not parse them.

The `safe_float` in `nvt5_ept.py` (lines 74-78) is the same text as the one in `nvp4_ept.py`, and
nothing in that page calls it. `EquityMetrics.SafeFloat` models both.

Splitting a label at `" — "` gives back exactly its symbol if and only if the symbol has no
`" — "` inside and does not end with `" —"` (`SplitHeadAtFirstSeparator`). With no outer
whitespace as well, the pick recovers the symbol (`PickRecoversSymbol`). The end condition matters:
for the symbol `"A —"`, the label starts `"A — — …"`, the separator is found one place early, and
the pick yields `"A"` (`PickLosesTrailingDash`). An em dash elsewhere, as in `"A—B"`, is harmless.

## Model

| member | source | states |
|---|---|---|
| EquityMetrics.SafeFloat | nvp4_ept.py:171-175 | the result is present exactly when the input is present, is not one of "None", "", "NA", "nan", and parses; a present result is the parser's value |
| EquityMetrics.SafeFloatRejects | nvp4_ept.py:173 | None and each placeholder token give None, whatever the parser would say |
| EquityMetrics.SafeFloatDelegates | nvp4_ept.py:172-175 | any other string is handed to the parser and its answer (value or failure) returned unchanged |
| EquityMetrics.InferExchangeSuffix | nvp4_ept.py:158-169 | the symbol comes back unchanged for every hint, including those starting with "India" |
| EquityMetrics.BuildOptions | nvp4_ept.py:199-205 | exactly min(5, number of matches) labels, the i-th built from the i-th match in provider order |
| EquityMetrics.ExtractSymbol | nvp4_ept.py:208 | the extracted symbol has no leading or trailing whitespace and is no longer than the label |
| EquityMetrics.SelectedSymbol | nvp4_ept.py:208-209 | the symbol used is the one extracted from the label; the exchange hint has no effect |
| EquityMetrics.SplitHeadAtFirstSeparator | nvp4_ept.py:205-208 | splitting `sym + " — " + rest` at " — " yields exactly `sym` if and only if `sym` has no " — " inside and does not end with " —" |
| EquityMetrics.PickRecoversSymbol | nvp4_ept.py:199-209 | picking the label of a match yields that match's symbol, for every hint, when the symbol has no " — " inside, does not end with " —", and has no outer whitespace |
| EquityMetrics.PickLosesTrailingDash | nvp4_ept.py:205-208 | the symbol "A —" is recovered as "A", so "no ' — ' inside" is not enough for the round trip |
| PyText.SplitHead | nvp4_ept.py:208 | `split(sep)[0]` is the prefix that ends where the first occurrence of sep begins, or the whole string |
| PyText.Strip | nvp4_ept.py:208 | `strip()` returns a contiguous slice of its input with only whitespace outside it, leaves no outer whitespace, and keeps a string that has none |
| EquityMetrics.Candidates | nvp4_ept.py:233 | the comprehension keeps string entries in order, none equal to the subject after upper-casing, and every such entry |
| EquityMetrics.CandidatesCount | nvp4_ept.py:233 | the comprehension keeps one entry per accepted raw position, duplicates included; with the facts of Candidates this fixes the result |
| EquityMetrics.FilterPeers | nvp4_ept.py:233 | an order-preserving subsequence of the raw list, of strings other than the subject, the first min(6, candidates) of them |
| EquityMetrics.FilterPeersKeepsAllWhenFew | nvp4_ept.py:233 | with at most six candidates, every qualifying raw entry survives the cut |
| EquityMetrics.CollectPeerPes | nvp4_ept.py:234-244 | the P/E list and the debug list stay aligned (same length, i-th P/E is the i-th pair's value, all positive); the debug list is the contributors of the peer list |
| EquityMetrics.ContributorsSound | nvp4_ept.py:238-242 | each recorded pair is a peer whose fetch succeeded with a parsed P/E strictly above 0, recorded with that P/E |
| EquityMetrics.ContributorsInOrder | nvp4_ept.py:235-242 | recorded peers appear in peer-list order, each list entry at most once |
| EquityMetrics.ContributorsComplete | nvp4_ept.py:235-244 | every peer with a present, positive P/E is recorded; a failing peer only skips itself |
| EquityMetrics.ContributorsCount | nvp4_ept.py:235-246 | one pair per contributing position of the peer list, so a peer listed twice with a positive P/E is recorded, and averaged, twice |
| EquityMetrics.MeanBetween | nvp4_ept.py:245-246 | the mean sum/len lies between the smallest and the largest contributor |
| EquityMetrics.EstimateSectorPe | nvp4_ept.py:227-248 | None and no pairs when the flag is off, the key is empty or the peer list failed; otherwise the pairs are the contributors of the filtered peers, and the estimate is present exactly when one exists, equal to their mean, positive and between min and max |
| EquityMetrics.ComputeMetrics | nvp4_ept.py:220-248 | PE, P/B, dividend yield and ROE are safe_float of their payload fields whatever happens in the peer step; the sector estimate and pairs are those of step 3 |
| FallbackFetch.DummyData | nvt5_ept.py:80-89 | exactly the six keys, Company is the query, every other field "NA" |
| FallbackFetch.FetchData | nvt5_ept.py:91-110 | exactly the six keys; Sector PE always "NA"; the dummy record without a key or on failure; else Company is Name or the query, and each ratio is its payload field verbatim or "NA" when missing |
| FallbackFetch.SparsePayloadLooksLikeFailure | nvt5_ept.py:101-110 | a payload with none of the five source fields yields exactly the dummy record |
| FallbackFetch.RatioNAExactly | nvt5_ept.py:103-107 | a ratio reads "NA" exactly when its source field is missing or itself "NA" |

## Left out

- The HTTP wrappers `av_symbol_search`, `av_company_overview` and `finnhub_company_peers` (nvp4_ept.py:134-156), and the request inside `fetch_data` (nvt5_ept.py:96-100), are network I/O. They are parameters: an OVERVIEW lookup per symbol, and the peers response.
- An OVERVIEW lookup is a function of the symbol, so two lookups of the same symbol in one run get the same answer. The provider's rate limiting is not modelled.
- `time.sleep(12)` between peer calls (nvp4_ept.py:237) is timing only and has no observable result.
- Python's `float()` grammar is the parameter `parse`. `NaN` and infinities have no real counterpart. The mean is exact real arithmetic, without float rounding.
- Float formatting (`:.2f`, `:.2%`) and all Streamlit rendering are presentation: text areas, sidebar, `selectbox`, `st.metric`, the Name line and the debug expander (nvp4_ept.py:250-273, nvt5_ept.py:115-130).
- The page-level stops are UI control flow: the missing-key error, the search error, the empty match list and the overview error (nvp4_ept.py:181-195, 214-218). The model starts from the match list and from a fetched payload.
- `search.get("bestMatches", [])` is not modelled separately. The match list is an input, and a missing key is simply an empty list.
- Payload values are text. A JSON number in a payload is not modelled.
- A reply that is not a JSON object is a failed fetch for a peer (the `.get` raises inside the per-peer `try`) and for `fetch_data` (inside its `try`). For the subject's own payload, the `.get` calls (nvp4_ept.py:221-224) are outside any `try`, so such a reply ends the page run with an uncaught error. `ComputeMetrics` takes the subject's payload as a JSON object and does not model that crash.
- Peer-list entries are either strings or "something else". Any non-string is dropped, as `isinstance(p, str)` does.
- PyText.Upper: maps only the ASCII letters. Python's full Unicode case mapping, including mappings that change length such as "ß" to "SS", is not modelled.
- The forms in nvp2_ccscrpromptenhancer.py, nvt2_ccscr.py and nvt3_ccscr.py only join widget text into a display block. They hold no logic beyond string templating.
